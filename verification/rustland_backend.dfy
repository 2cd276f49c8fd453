/** The callbacks of the BPF backend, updating its counters, flags, cpu_map and rings in place. Each is
    proved against the step of module Rustland. */
module RustlandBackend {
  import opened Words
  import opened Rustland
  import opened RustlandProtocol
  import opened RustlandRuns

  // Repeated consumption

  /** One more round of the consumption loop. */
  lemma {:induction false} ConsumeOnceMore(q: seq<Slot>, tasks: map<Pid, Task>, cpu: nat, n: nat)
    ensures var (rest, got) := ConsumeUpTo(q, tasks, cpu, n);
            var (rest', got') := ConsumeUpTo(rest, tasks, cpu, 1);
            ConsumeUpTo(q, tasks, cpu, n + 1) == (rest', got + got')
  {
    if q == [] || n == 0 {
      assert [] + ConsumeUpTo(q, tasks, cpu, 1).1 == ConsumeUpTo(q, tasks, cpu, 1).1;
    } else {
      if MayRun(tasks, q[0].pid, cpu) {
        ConsumeOnceMore(q[1..], tasks, cpu, n - 1);
        var (rest, got) := ConsumeUpTo(q[1..], tasks, cpu, n - 1);
        var more := ConsumeUpTo(rest, tasks, cpu, 1).1;
        assert [q[0].pid] + (got + more) == [q[0].pid] + got + more;
      } else {
        ConsumeOnceMore(q[1..], tasks, cpu, n);
        var rest := ConsumeUpTo(q[1..], tasks, cpu, n).0;
        assert ([q[0]] + rest)[1..] == rest;
      }
    }
  }

  lemma {:induction false} NothingFoundNothingTaken(q: seq<Slot>, tasks: map<Pid, Task>, cpu: nat)
    requires ConsumeUpTo(q, tasks, cpu, 1).1 == []
    ensures ConsumeUpTo(q, tasks, cpu, 1).0 == q
  {
    if q != [] {
      NothingFoundNothingTaken(q[1..], tasks, cpu);
      assert q == [q[0]] + q[1..];
    }
  }

  /** Once a consumption finds nothing, further rounds change nothing. */
  lemma {:induction false} ConsumptionIsOver(q: seq<Slot>, tasks: map<Pid, Task>, cpu: nat, n: nat, m: nat)
    requires n <= m && ConsumeUpTo(ConsumeUpTo(q, tasks, cpu, n).0, tasks, cpu, 1).1 == []
    ensures ConsumeUpTo(q, tasks, cpu, m) == ConsumeUpTo(q, tasks, cpu, n)
    decreases m
  {
    if n < m {
      ConsumptionIsOver(q, tasks, cpu, n, m - 1);
      ConsumeOnceMore(q, tasks, cpu, m - 1);
      assert ConsumeUpTo(q, tasks, cpu, n).1 + [] == ConsumeUpTo(q, tasks, cpu, n).1;
      NothingFoundNothingTaken(ConsumeUpTo(q, tasks, cpu, n).0, tasks, cpu);
    }
  }

  class Backend {
    const cfg: Config

    // globals of the backend
    const cpuMap: array<Pid>
    var nrQueued: nat
    var nrScheduled: nat
    var nrRunning: int
    var nrUserDispatches: nat
    var nrKernelDispatches: nat
    var nrCancelDispatches: nat
    var nrBounceDispatches: nat
    var nrSchedCongested: nat
    var userschedNeeded: bool
    var isFifoEnabled: bool
    var nrWaitingAvg: U64

    // ring buffers and kernel state
    var tasks: map<Pid, Task>
    var queued: seq<QMsg>
    var dispatched: seq<DMsg>
    var batch: seq<Slot>          // dispatches waiting in the buffer of the dispatching CPU
    var dsqs: seq<seq<Slot>>
    var local: seq<seq<Pid>>
    var aborted: bool             // scx_bpf_error was called
    ghost var onCpu: map<nat, Pid>
    ghost var dead: set<Pid>
    ghost var received: seq<QMsg>
    ghost var sawEmpty: bool
    var h: History                // history, which no operation of the source reads

    ghost function Stats(): Counters
      reads this
    {
      Counters(nrQueued, nrScheduled, nrRunning, nrUserDispatches, nrKernelDispatches, nrCancelDispatches,
               nrBounceDispatches, nrSchedCongested)
    }

    ghost function View(): State
      reads this, cpuMap
    {
      State(tasks, dead, queued, received, dispatched, dsqs, local, Stats(), userschedNeeded, aborted,
            isFifoEnabled, nrWaitingAvg, cpuMap[..], onCpu, sawEmpty, h)
    }

    ghost predicate Valid()
      reads this, cpuMap
    {
      Inv(cfg, View()) && batch == []
    }

    constructor (config: Config)
      requires ValidConfig(config)
      ensures cfg == config && fresh(cpuMap) && Initial(cfg, View()) && Valid()
    {
      cfg := config;
      cpuMap := new Pid[MAX_CPUS](_ => 0);
      nrQueued, nrScheduled, nrRunning := 0, 0, 0;
      nrUserDispatches, nrKernelDispatches, nrCancelDispatches, nrBounceDispatches, nrSchedCongested := 0, 0, 0, 0, 0;
      userschedNeeded, isFifoEnabled, nrWaitingAvg, aborted := false, false, 0, false;
      tasks, queued, dispatched, batch := map[], [], [], [];
      dsqs, local := seq(DSQ_COUNT, _ => []), seq(config.nrCpus, _ => []);
      onCpu, dead, received, sawEmpty, h := map[], {}, [], false, History([], [], []);
      new;
      InitialInv(cfg, View());
    }

    /** Each callback below makes the step of its event, so each keeps the invariant. */
    twostate lemma CallbackKeepsValid(e: Event)
      requires old(Valid()) && CanStep(cfg, old(View()), e) && View() == Step(cfg, old(View()), e) && batch == []
      ensures Valid()
    {
      StepKeeps(cfg, old(View()), e);
    }

    // The wake-up flag

    method SetUserschedNeeded()
      modifies this`userschedNeeded
      ensures userschedNeeded
    {
      userschedNeeded := true;
    }

    method TestAndClearUserschedNeeded() returns (was: bool)
      modifies this`userschedNeeded
      ensures was == old(userschedNeeded) && !userschedNeeded
    {
      was := userschedNeeded;
      userschedNeeded := false;
    }

    // Kernel helpers in the dispatch callback

    /** scx_bpf_dispatch from the dispatch callback needs a free slot. */
    method ScxDispatch(p: Pid, dsqId: nat, preempt: bool)
      requires |batch| < MAX_DISPATCH_SLOT
      modifies this`batch
      ensures batch == old(batch) + [Slot(p, dsqId, preempt)]
    {
      batch := batch + [Slot(p, dsqId, preempt)];
    }

    method ScxDispatchCancel()
      requires batch != []
      modifies this`batch
      ensures batch == old(batch)[..|old(batch)| - 1]
    {
      batch := batch[..|batch| - 1];
    }

    /** scx_bpf_consume for a CPU. */
    method ScxConsume(d: nat, cpu: nat) returns (found: bool)
      requires d < |dsqs| && cpu < |local|
      modifies this`dsqs, this`local
      ensures var (rest, got) := ConsumeUpTo(old(dsqs)[d], tasks, cpu, 1);
              dsqs == old(dsqs)[d := rest] && local == old(local)[cpu := old(local)[cpu] + got] && found == (got != [])
    {
      var r := ConsumeUpTo(dsqs[d], tasks, cpu, 1);
      dsqs := dsqs[d := r.0];
      local := local[cpu := local[cpu] + r.1];
      found := r.1 != [];
    }

    // Messages from user space

    /** cpu_to_dsq: an invalid CPU raises an error and falls back to the shared queue. */
    method CpuToDsq(cpu: int) returns (d: nat)
      modifies this`aborted
      ensures aborted == (old(aborted) || !(0 <= cpu < MAX_CPUS))
      ensures d == if 0 <= cpu < MAX_CPUS then cpu else SHARED_DSQ
    {
      if cpu < 0 || cpu >= MAX_CPUS {
        aborted := true;
        return SHARED_DSQ;
      }
      return cpu;
    }

    /** dispatch_task, called from the dispatch callback. */
    method DispatchTask(p: Pid, dsqId: nat, cpumaskCnt: U64, preempt: bool)
      requires p in tasks && |batch| < MAX_DISPATCH_SLOT && dsqId < DSQ_COUNT
      modifies this`batch, this`nrCancelDispatches, this`nrBounceDispatches
      ensures var m := DMsg(p, dsqId, cpumaskCnt, dsqId == SHARED_DSQ, preempt, 0, false, 0);
              var o := OutcomeOf(tasks, m);
              && batch == old(batch) + SlotsOf(m, o)
              && nrCancelDispatches == old(nrCancelDispatches) + (if o == Cancelled then 1 else 0)
              && nrBounceDispatches == old(nrBounceDispatches) + (if o == Bounced then 1 else 0)
    {
      if dsqId == SHARED_DSQ {
        ScxDispatch(p, dsqId, preempt);
        return;
      }
      ScxDispatch(p, dsqId, preempt);
      var currCpumaskCnt := tasks[p].cnt;
      var forceShared := dsqId !in tasks[p].mask;
      if currCpumaskCnt != cpumaskCnt {
        ScxDispatchCancel();
        nrCancelDispatches := nrCancelDispatches + 1;
        return;
      }
      if forceShared {
        ScxDispatchCancel();
        nrBounceDispatches := nrBounceDispatches + 1;
        ScxDispatch(p, SHARED_DSQ, preempt);
      }
    }

    /** dispatch_user_scheduler. */
    method DispatchUserScheduler()
      requires batch == []
      modifies this`batch, this`userschedNeeded, this`aborted, this`nrCancelDispatches, this`nrBounceDispatches
      ensures batch == FirstBatch(cfg, old(View())) && View() == FlagCleared(cfg, old(View()))
    {
      var was := TestAndClearUserschedNeeded();
      if !was {
        return;
      }
      if cfg.userPid !in tasks {
        aborted := true;
        return;
      }
      DispatchTask(cfg.userPid, SHARED_DSQ, 0, false);
      assert batch == [Slot(cfg.userPid, SHARED_DSQ, false)];
    }

    /** handle_dispatched_task: whether the drain has to stop. */
    method HandleDispatchedTask(m: DMsg) returns (stop: bool)
      requires |batch| < MAX_DISPATCH_SLOT
      modifies this`batch, this`aborted, this`nrUserDispatches, this`nrCancelDispatches, this`nrBounceDispatches
      ensures var o := OutcomeOf(tasks, m);
              && batch == old(batch) + SlotsOf(m, o)
              && Stats() == Counted(old(Stats()), o)
              && aborted == (old(aborted) || o == Invalid)
              && stop == (o != Gone && |batch| >= MAX_DISPATCH_SLOT)
      ensures stop || |batch| < MAX_DISPATCH_SLOT
    {
      if m.pid !in tasks {
        return false;
      }
      if m.anyCpu {
        DispatchTask(m.pid, SHARED_DSQ, 0, m.preempt);
      } else {
        var d := CpuToDsq(m.cpu);
        DispatchTask(m.pid, d, m.cnt, m.preempt);
      }
      nrUserDispatches := nrUserDispatches + 1;
      stop := |batch| >= MAX_DISPATCH_SLOT;
    }

    /** Remove the first message from the ring, and note how it was handled. */
    method PopDispatched()
      requires dispatched != []
      modifies this`dispatched, this`h
      ensures var r := HandledAs(tasks, |old(h).maskLog|, old(dispatched)[0]);
              View() == old(View()).(dispatched := old(dispatched)[1..],
                                     h := old(h).(handled := old(h).handled + [r]))
    {
      h := h.(handled := h.handled + [HandledAs(tasks, |h.maskLog|, dispatched[0])]);
      dispatched := dispatched[1..];
    }

    /** Handle one message. */
    method HandleNext() returns (stop: bool)
      requires dispatched != [] && |batch| < MAX_DISPATCH_SLOT
      modifies this
      ensures View() == HandleFirst(old(View()))
      ensures var o := OutcomeOf(old(tasks), old(dispatched)[0]);
              && batch == old(batch) + SlotsOf(old(dispatched)[0], o)
              && stop == (o != Gone && |batch| >= MAX_DISPATCH_SLOT)
      ensures stop || |batch| < MAX_DISPATCH_SLOT
    {
      ghost var s, o := View(), OutcomeOf(tasks, dispatched[0]);
      stop := HandleDispatchedTask(dispatched[0]);
      assert View() == s.(n := Counted(s.n, o), aborted := s.aborted || o == Invalid);
      PopDispatched();
    }

    /** bpf_user_ringbuf_drain with handle_dispatched_task, started with a free slot. */
    method DrainDispatched()
      requires |batch| < MAX_DISPATCH_SLOT
      modifies this
      ensures (View(), batch) == Drain(old(View()), old(batch))
    {
      var stop := false;
      while dispatched != [] && !stop
        invariant stop || |batch| < MAX_DISPATCH_SLOT
        invariant (if stop then (View(), batch) else Drain(View(), batch)) == Drain(old(View()), old(batch))
        decreases |dispatched|
      {
        stop := HandleNext();
      }
    }

    /** The kernel empties the dispatch buffer before the first consumption. */
    method FlushBatch()
      requires |dsqs| == DSQ_COUNT
      modifies this`batch, this`dsqs
      ensures batch == [] && View() == old(View()).(dsqs := Flush(old(dsqs), old(batch)))
    {
      dsqs := Flush(dsqs, batch);
      batch := [];
    }

    /** The bounded consumption loops of rustland_dispatch. */
    method ConsumeAll(d: nat, cpu: nat)
      requires d < |dsqs| && cpu < |local|
      modifies this`dsqs, this`local
      ensures View() == ConsumeInto(old(View()), d, cpu)
    {
      ghost var q, l := dsqs[d], local[cpu];
      assert l + [] == l;
      for i := 0 to MAX_ENQUEUED_TASKS
        invariant var (rest, got) := ConsumeUpTo(q, tasks, cpu, i);
                  dsqs == old(dsqs)[d := rest] && local == old(local)[cpu := l + got]
      {
        ConsumeOnceMore(q, tasks, cpu, i);
        ghost var (rest, got) := ConsumeUpTo(q, tasks, cpu, i);
        assert l + (got + ConsumeUpTo(rest, tasks, cpu, 1).1) == l + got + ConsumeUpTo(rest, tasks, cpu, 1).1;
        var found := ScxConsume(d, cpu);
        if !found {
          NothingFoundNothingTaken(rest, tasks, cpu);
          assert l + got + [] == l + got;
          ConsumptionIsOver(q, tasks, cpu, i, MAX_ENQUEUED_TASKS);
          return;
        }
      }
    }

    /** The body of rustland_dispatch. */
    method DrainAndConsume(cpu: nat)
      requires Shape(cfg, View()) && cpu < cfg.nrCpus && batch == []
      modifies this
      ensures View() == DispatchStep(cfg, old(View()), cpu) && batch == []
    {
      DispatchUserScheduler();
      DrainKeepsQueues(View(), batch);
      DrainDispatched();
      assert |dsqs| == DSQ_COUNT && |local| == cfg.nrCpus;
      FlushBatch();
      ConsumeAll(SHARED_DSQ, cpu);
      ConsumeAll(cpu, cpu);
    }

    /** rustland_dispatch. */
    method Dispatch(cpu: nat)
      requires Valid() && cpu < cfg.nrCpus
      modifies this
      ensures Valid() && View() == Step(cfg, old(View()), Event.Dispatch(cpu))
    {
      DrainAndConsume(cpu);
      CallbackKeepsValid(Event.Dispatch(cpu));
    }

    // Messages to user space

    /** bpf_ringbuf_reserve and submit, and sched_congested when there is no room. */
    method SendToUser(q: QMsg, full: bool)
      modifies this`queued, this`nrQueued, this`nrSchedCongested
      ensures View() == Send(old(View()), q, full)
    {
      if full {
        nrSchedCongested := nrSchedCongested + 1;
        return;
      }
      queued := queued + [q];
      nrQueued := nrQueued + 1;
    }

    /** A dispatch from the enqueue callback takes effect when it returns; each one is counted. */
    method DispatchDirect(p: Pid, dsqId: nat)
      requires |dsqs| == DSQ_COUNT
      modifies this`dsqs, this`nrKernelDispatches
      ensures View() == KernelDispatch(old(View()), Slot(p, dsqId, false))
    {
      dsqs := FileSlot(dsqs, Slot(p, dsqId, false));
      nrKernelDispatches := nrKernelDispatches + 1;
    }

    /** The same for the local queue of a CPU. */
    method DispatchLocal(p: Pid, cpu: nat)
      requires cpu < |local|
      modifies this`local, this`nrKernelDispatches
      ensures View() == LocalDispatch(old(View()), p, cpu)
    {
      local := local[cpu := local[cpu] + [p]];
      nrKernelDispatches := nrKernelDispatches + 1;
    }

    /** The body of rustland_enqueue. */
    method SendOrDispatch(p: Pid, cpu: nat, full: bool)
      requires |dsqs| == DSQ_COUNT && p in tasks && cpu < |local|
      modifies this
      ensures View() == EnqueueStep(cfg, old(View()), p, cpu, full) && batch == old(batch)
    {
      if p == cfg.userPid {
        return;
      }
      if tasks[p].kthread && |tasks[p].mask| == 1 {
        DispatchLocal(p, cpu);
        return;
      }
      if !cfg.fullUser && isFifoEnabled {
        DispatchDirect(p, cpu);
        return;
      }
      SendToUser(QMsg(p, cpu, tasks[p].cnt, false, |h.maskLog|), full);
      if full {
        DispatchDirect(p, SHARED_DSQ);
      }
    }

    /** rustland_enqueue; `cpu` is the kernel's scx_bpf_task_cpu(p). */
    method Enqueue(p: Pid, cpu: nat, full: bool)
      requires Valid() && p in tasks && cpu < cfg.nrCpus
      modifies this
      ensures Valid() && View() == Step(cfg, old(View()), Event.Enqueue(p, cpu, full))
    {
      SendOrDispatch(p, cpu, full);
      CallbackKeepsValid(Event.Enqueue(p, cpu, full));
    }

    /** rustland_exit_task; the generation counter of the message is left as the ring has it. */
    method ExitTask(p: Pid, full: bool, garbage: U64)
      requires Valid() && p in tasks
      modifies this
      ensures Valid() && View() == Step(cfg, old(View()), Event.Exit(p, full, garbage))
    {
      SendToUser(QMsg(p, -1, garbage, true, |h.maskLog|), full);
      CallbackKeepsValid(Event.Exit(p, full, garbage));
    }

    /** rustland_init_task. */
    method InitTask(p: Pid, mask: set<nat>, kthread: bool)
      requires Valid() && CanStep(cfg, View(), Event.Init(p, mask, kthread))
      modifies this
      ensures Valid() && View() == Step(cfg, old(View()), Event.Init(p, mask, kthread))
    {
      tasks := tasks[p := Task(mask, 0, kthread)];
      CallbackKeepsValid(Event.Init(p, mask, kthread));
    }

    /** The body of rustland_set_cpumask, after the kernel has changed the mask. */
    method ChangeMask(p: Pid, mask: set<nat>)
      requires p in tasks
      modifies this`tasks, this`h
      ensures View() == MaskStep(old(View()), p, mask)
    {
      var t := tasks[p].(mask := mask);
      tasks := tasks[p := t.(cnt := Wrap(t.cnt + 1))];
      h := h.(maskLog := h.maskLog + [p]);
    }

    /** rustland_set_cpumask. */
    method SetCpumask(p: Pid, mask: set<nat>)
      requires Valid() && CanStep(cfg, View(), Event.SetCpumask(p, mask))
      modifies this
      ensures Valid() && View() == Step(cfg, old(View()), Event.SetCpumask(p, mask))
    {
      ChangeMask(p, mask);
      CallbackKeepsValid(Event.SetCpumask(p, mask));
    }

    // Running tasks

    method SetCpuOwner(cpu: nat, p: Pid)
      requires cpu < cpuMap.Length
      modifies cpuMap
      ensures cpuMap[..] == old(cpuMap[..])[cpu := p]
    {
      cpuMap[cpu] := p;
    }

    /** The body of rustland_running. */
    method OccupyCpu(p: Pid, cpu: nat)
      requires cpu < cpuMap.Length
      modifies this, cpuMap
      ensures View() == RunStep(cfg, old(View()), p, cpu) && batch == old(batch)
    {
      onCpu := onCpu[cpu := p];
      if p != cfg.userPid {
        SetCpuOwner(cpu, p);
        nrRunning := nrRunning + 1;
      }
    }

    /** rustland_running. */
    method Running(p: Pid, cpu: nat)
      requires Valid() && CanStep(cfg, View(), Event.Run(p, cpu))
      modifies this, cpuMap
      ensures Valid() && View() == Step(cfg, old(View()), Event.Run(p, cpu))
    {
      OccupyCpu(p, cpu);
      CallbackKeepsValid(Event.Run(p, cpu));
    }

    /** Mark a CPU as free. */
    method ClearCpuOwner(cpu: nat)
      requires cpu < cpuMap.Length
      modifies this`nrRunning, this`userschedNeeded, cpuMap
      ensures View() == old(View()).(cpuMap := old(cpuMap[..])[cpu := 0],
                                     n := old(Stats()).(nrRunning := old(nrRunning) - 1), needed := true)
    {
      SetCpuOwner(cpu, 0);
      nrRunning := nrRunning - 1;
      SetUserschedNeeded();
    }

    /** The body of rustland_stopping. */
    method ReleaseCpu(p: Pid, cpu: nat)
      requires cpu < cpuMap.Length
      modifies this, cpuMap
      ensures View() == StopStep(cfg, old(View()), p, cpu) && batch == old(batch)
    {
      if p != cfg.userPid {
        ClearCpuOwner(cpu);
      }
      onCpu := onCpu - {cpu};
    }

    /** rustland_stopping. */
    method Stopping(p: Pid, cpu: nat)
      requires Valid() && CanStep(cfg, View(), Event.Stop(p, cpu))
      modifies this, cpuMap
      ensures Valid() && View() == Step(cfg, old(View()), Event.Stop(p, cpu))
    {
      ReleaseCpu(p, cpu);
      CallbackKeepsValid(Event.Stop(p, cpu));
    }

    /** rustland_update_idle. */
    method UpdateIdle(cpu: nat, idle: bool)
      requires Valid() && cpu < cfg.nrCpus
      modifies this
      ensures Valid() && View() == Step(cfg, old(View()), Event.UpdateIdle(cpu, idle))
    {
      if idle && (nrQueued != 0 || nrScheduled != 0) {
        SetUserschedNeeded();
      }
      CallbackKeepsValid(Event.UpdateIdle(cpu, idle));
    }

    /** rustland_cpu_release. */
    method CpuRelease(p: Pid)
      requires Valid()
      modifies this
      ensures Valid() && View() == Step(cfg, old(View()), Event.CpuRelease(p))
    {
      if p == cfg.userPid {
        SetUserschedNeeded();
      }
      CallbackKeepsValid(Event.CpuRelease(p));
    }

    // The timer

    /** should_enable_fifo. */
    method ShouldEnableFifo() returns (enable: bool)
      modifies this`nrWaitingAvg
      ensures (enable, nrWaitingAvg)
           == FifoTick(cfg, isFifoEnabled, old(nrWaitingAvg), Wrap(nrQueued + nrScheduled), nrRunning)
    {
      var nrWaiting := Wrap(nrQueued + nrScheduled);
      if !cfg.fifoSched {
        return false;
      }
      if isFifoEnabled {
        return nrRunning < cfg.nrCpus - 1;
      }
      nrWaitingAvg := Wrap(nrWaitingAvg + nrWaiting) / 2;
      return nrWaitingAvg == 0;
    }

    /** The body of usersched_timer_fn. */
    method Tick()
      modifies this
      ensures View() == TimerStep(cfg, old(View())) && batch == old(batch)
    {
      SetUserschedNeeded();
      isFifoEnabled := ShouldEnableFifo();
    }

    /** usersched_timer_fn. */
    method TimerFn()
      requires Valid()
      modifies this
      ensures Valid() && View() == Step(cfg, old(View()), Event.Timer)
    {
      Tick();
      CallbackKeepsValid(Event.Timer);
    }
  }
}
