/** The callbacks of the vruntime scheduler, updating its globals, the task contexts and the kernel's
    queues in place. Each is proved against the step of module Vruntime. */
module VruntimeScheduler {
  import opened Words
  import opened Ewma
  import opened Placement
  import opened IdleCpu
  import opened VirtualClock
  import opened Vruntime
  import opened VruntimeInvariants
  import Arithmetic
  import VruntimeRuns

  const EINVAL: int := 22

  class Scheduler {
    const cfg: Config

    // globals of the scheduler
    var vtimeNow: U64
    var starvationSharedTs: U64
    var starvationPrioTs: U64
    var nrDirectDispatches: nat
    var nrKthreadDispatches: nat
    var nrPrioDispatches: nat
    var nrSharedDispatches: nat
    var nrRunning: int
    var nrInteractive: int
    var nrOnlineCpus: int
    var offlineCpumask: set<nat>
    var tasks: map<Pid, Task>

    // kernel state
    var places: Places
    var masks: Masks
    ghost var ktime: nat

    ghost function View(): State
      reads this
    {
      State(vtimeNow, starvationSharedTs, starvationPrioTs,
            nrDirectDispatches, nrKthreadDispatches, nrPrioDispatches, nrSharedDispatches,
            nrRunning, nrInteractive, nrOnlineCpus, offlineCpumask, tasks, places, masks, ktime)
    }

    ghost predicate Valid()
      reads this
    {
      Inv(cfg, View())
    }

    /** democracy_init. */
    constructor (config: Config, cpuMasks: Masks, now: U64)
      requires ValidConfig(config) && WithinTopology(config.topo, cpuMasks.online) && now < TWO63
      ensures cfg == config && masks == cpuMasks && Initial(cfg, View()) && Valid()
    {
      cfg := config;
      vtimeNow, starvationSharedTs, starvationPrioTs := 0, 0, 0;
      nrDirectDispatches, nrKthreadDispatches, nrPrioDispatches, nrSharedDispatches := 0, 0, 0, 0;
      nrRunning, nrInteractive, nrOnlineCpus := 0, 0, 0;
      offlineCpumask, tasks := {}, map[];
      places := Places(seq(DSQ_COUNT, _ => []), seq(config.topo.count, _ => []), map[]);
      masks, ktime := cpuMasks, now;
      new;
      nrOnlineCpus := GetNrOnlineCpus();
      InitialInv(cfg, View());
    }

    /** get_nr_online_cpus. */
    method GetNrOnlineCpus() returns (cpus: nat)
      requires WithinTopology(cfg.topo, masks.online)
      ensures cpus == |masks.online|
    {
      cpus := 0;
      ghost var counted: set<nat> := {};
      for i := 0 to cfg.topo.count
        invariant counted == set c | c in masks.online && c < i
        invariant cpus == |counted|
      {
        if i in masks.online {
          counted := counted + {i};
          cpus := cpus + 1;
        }
      }
      assert counted == masks.online;
    }

    /** Each callback below makes the step of its event, so it keeps the invariant. */
    twostate lemma CallbackKeepsValid(e: Event)
      requires old(Valid()) && CanStep(cfg, old(View()), e) && View() == Step(cfg, old(View()), e)
      ensures Valid()
    {
      StepKeeps(cfg, old(View()), e);
    }

    // Kernel helpers

    /** scx_bpf_test_and_clear_cpu_idle. */
    method TestAndClearCpuIdle(cpu: int) returns (wasIdle: bool)
      modifies this`masks
      ensures (wasIdle, masks) == TestAndClearIdle(cfg.topo, old(masks), cpu)
    {
      var r := TestAndClearIdle(cfg.topo, masks, cpu);
      wasIdle, masks := r.0, r.1;
    }

    /** scx_bpf_consume, on behalf of a CPU. */
    method ScxConsume(d: nat, cpu: nat) returns (consumed: bool)
      requires Shape(cfg, View()) && d < DSQ_COUNT && cpu < cfg.topo.count
      modifies this`places
      ensures consumed == old(Ready(View(), d, cpu))
      ensures View() == if consumed then Consume(old(View()), d, cpu) else old(View())
    {
      var i := FirstRunnable(places.dsqs[d], tasks, cpu);
      consumed := i < |places.dsqs[d]|;
      if consumed {
        places := TakeLocal(places, places.dsqs[d][i], cpu);
      }
    }

    /** scx_bpf_dispatch_vtime. */
    method ScxDispatchVtime(p: Pid, d: nat, slice: U64, vtime: U64)
      requires d < |places.dsqs| && p in tasks
      modifies this`places, this`tasks
      ensures View() == DispatchVtime(old(View()), p, d, slice, vtime)
    {
      places := AttachDsq(places, p, d, InsertPos(places.dsqs[d], tasks, vtime));
      tasks := tasks[p := tasks[p].(vtime := vtime, slice := slice)];
    }

    // select_cpu and enqueue

    /** pick_idle_cpu; `anySmt` and `anyIdle` are the CPUs the two mask searches come up with. */
    method PickIdleCpu(p: Pid, prevCpu: int, anySmt: int, anyIdle: int) returns (cpu: int)
      requires p in tasks
      modifies this`masks
      ensures (cpu, masks) == PickIdle(cfg.topo, cfg.smtEnabled, old(masks), tasks[p].cpus, prevCpu, anySmt, anyIdle)
    {
      var allowed := tasks[p].cpus;
      var claimed := false;
      if |allowed| == 1 {
        cpu := FirstCpu(cfg.topo, allowed, 0);
        claimed := TestAndClearCpuIdle(cpu);
        if claimed { return cpu; }
        return -ENOENT;
      }
      if cfg.smtEnabled {
        if TestCpu(cfg.topo, prevCpu, allowed) && TestCpu(cfg.topo, prevCpu, masks.smt) {
          claimed := TestAndClearCpuIdle(prevCpu);
          if claimed { return prevCpu; }
        }
        if TestCpu(cfg.topo, anySmt, masks.online) {
          claimed := TestAndClearCpuIdle(anySmt);
          if claimed { return anySmt; }
        }
      }
      if TestCpu(cfg.topo, prevCpu, allowed) {
        claimed := TestAndClearCpuIdle(prevCpu);
        if claimed { return prevCpu; }
      }
      if TestCpu(cfg.topo, anyIdle, masks.online) {
        claimed := TestAndClearCpuIdle(anyIdle);
        if claimed { return anyIdle; }
      }
      return -ENOENT;
    }

    /** dispatch_direct_cpu: 0 on success, -EINVAL if the cpumask rules the CPU out. */
    method DispatchDirectCpu(p: Pid, cpu: nat) returns (err: int)
      requires Shape(cfg, View()) && Known(View(), p) && cpu < cfg.topo.count
      modifies this`places, this`tasks
      ensures err == if cpu in old(tasks)[p].cpus then 0 else -EINVAL
      ensures View() == if err == 0 then DirectDispatch(cfg, old(View()), p, cpu) else old(View())
    {
      var slice := TaskSlice(cfg, tasks[p].slice);
      var vtime := ClampedVtime(cfg.sliceLag, vtimeNow, tasks[p].vtime);
      if !TestCpu(cfg.topo, cpu, tasks[p].cpus) {
        return -EINVAL;
      }
      ScxDispatchVtime(p, cpu, slice, vtime);
      return 0;
    }

    /** is_interactive_avail. */
    predicate IsInteractiveAvail()
      requires |places.dsqs| == DSQ_COUNT
      reads this
    {
      |places.dsqs[PRIO_DSQ]| < nrOnlineCpus * 4
    }

    method HandleSyncWakeup(p: Pid)
      requires Shape(cfg, View()) && Known(View(), p)
      modifies this`tasks
      ensures View() == SyncWakeup(old(View()), p)
    {
      if IsInteractiveAvail() {
        tasks := tasks[p := tasks[p].(ctx := tasks[p].ctx.(interactive := true))];
      }
    }

    /** The second half of democracy_select_cpu: dispatch to the CPU that was picked, if one was. */
    method DispatchToPicked(p: Pid, picked: int, prevCpu: int) returns (cpu: int)
      requires Shape(cfg, View()) && Known(View(), p) && picked < cfg.topo.count
      modifies this
      ensures View() == PlaceSelected(cfg, old(View()), p, picked, masks) && masks == old(masks)
      ensures p in places.loc && cpu == if places.loc[p].Queued? then places.loc[p].dsq else prevCpu
    {
      var err := -EINVAL;
      if picked >= 0 {
        err := DispatchDirectCpu(p, picked);
      }
      if err == 0 {
        nrDirectDispatches := nrDirectDispatches + 1;
        return picked;
      }
      places := Relabel(places, p, Handover); // the kernel goes on to call enqueue
      return prevCpu;
    }

    /** The body of democracy_select_cpu. */
    method DispatchToIdleCpu(p: Pid, prevCpu: int, sync: bool, anySmt: int, anyIdle: int) returns (cpu: int)
      requires Shape(cfg, View()) && CanStep(cfg, View(), Event.SelectCpu(p, prevCpu, sync, anySmt, anyIdle))
      requires WithinTopology(cfg.topo, tasks[p].cpus)
      modifies this
      ensures View() == SelectStep(cfg, old(View()), p, prevCpu, sync, anySmt, anyIdle)
      ensures p in places.loc && cpu == if places.loc[p].Queued? then places.loc[p].dsq else prevCpu
    {
      ghost var picked, after := PickedCpu(cfg, View(), p, prevCpu, sync, anySmt, anyIdle);
      if sync {
        HandleSyncWakeup(p);
      }
      cpu := PickIdleCpu(p, prevCpu, anySmt, anyIdle);
      cpu := DispatchToPicked(p, cpu, prevCpu);
    }

    /** democracy_select_cpu: the CPU the task was dispatched to, or else the previous one. */
    method SelectCpu(p: Pid, prevCpu: int, sync: bool, anySmt: int, anyIdle: int) returns (cpu: int)
      requires Valid() && CanStep(cfg, View(), Event.SelectCpu(p, prevCpu, sync, anySmt, anyIdle))
      modifies this
      ensures Valid() && View() == Step(cfg, old(View()), Event.SelectCpu(p, prevCpu, sync, anySmt, anyIdle))
      ensures p in places.loc && cpu == if places.loc[p].Queued? then places.loc[p].dsq else prevCpu
    {
      cpu := DispatchToIdleCpu(p, prevCpu, sync, anySmt, anyIdle);
      CallbackKeepsValid(Event.SelectCpu(p, prevCpu, sync, anySmt, anyIdle));
    }

    /** The body of democracy_enqueue. */
    method QueueTask(p: Pid, taskCpu: nat)
      requires Shape(cfg, View()) && Known(View(), p) && taskCpu < cfg.topo.count
      modifies this
      ensures View() == EnqueueStep(cfg, old(View()), p, taskCpu)
    {
      var vtime := ClampedVtime(cfg.sliceLag, vtimeNow, tasks[p].vtime);
      var slice := TaskSlice(cfg, tasks[p].slice);
      var err := -EINVAL;
      if cfg.localKthreads && tasks[p].kthread && |tasks[p].cpus| == 1 {
        err := DispatchDirectCpu(p, taskCpu);
      }
      if err == 0 {
        nrKthreadDispatches := nrKthreadDispatches + 1;
      } else if tasks[p].ctx.interactive && IsInteractiveAvail() {
        ScxDispatchVtime(p, PRIO_DSQ, slice, vtime);
        nrPrioDispatches := nrPrioDispatches + 1;
      } else {
        ScxDispatchVtime(p, SHARED_DSQ, slice, vtime);
        nrSharedDispatches := nrSharedDispatches + 1;
      }
    }

    /** democracy_enqueue. */
    method Enqueue(p: Pid, taskCpu: nat)
      requires Valid() && CanStep(cfg, View(), Event.Enqueue(p, taskCpu))
      modifies this
      ensures Valid() && View() == Step(cfg, old(View()), Event.Enqueue(p, taskCpu))
    {
      QueueTask(p, taskCpu);
      CallbackKeepsValid(Event.Enqueue(p, taskCpu));
    }

    // dispatch

    /** consume_offline_cpus. */
    method ConsumeOfflineCpus(cpu: nat) returns (consumed: bool)
      requires Shape(cfg, View()) && cpu < cfg.topo.count
      modifies this`places
      ensures consumed == (OfflineSource(cfg, old(View()), cpu, 1) < cfg.topo.count)
      ensures View() == if consumed then Consume(old(View()), OfflineSource(cfg, old(View()), cpu, 1), cpu)
                        else old(View())
    {
      var n := cfg.topo.count;
      var c := cpu;
      Arithmetic.ModOnce(cpu, n);
      for i := 0 to n - 1
        invariant View() == old(View())
        invariant c < n && c == LoopCpu(cfg, cpu, i)
        invariant OfflineSource(cfg, View(), cpu, 1) == OfflineSource(cfg, View(), cpu, i + 1)
      {
        VruntimeRuns.NextLoopCpu(cfg, cpu, i);
        c := (c + 1) % n;
        if c in offlineCpumask {
          var taken := ScxConsume(c, cpu);
          if taken { return true; }
        }
      }
      return false;
    }

    /** consume_prio_task. */
    method ConsumePrioTask(cpu: nat, now: U64) returns (consumed: bool)
      requires Shape(cfg, View()) && cpu < cfg.topo.count
      modifies this`places, this`starvationPrioTs
      ensures consumed == old(Ready(View(), PRIO_DSQ, cpu))
      ensures View() == if consumed then Serve(old(View()), PRIO_DSQ, cpu, now) else old(View())
    {
      consumed := ScxConsume(PRIO_DSQ, cpu);
      if consumed {
        starvationPrioTs := now;
      }
    }

    /** consume_regular_task. */
    method ConsumeRegularTask(cpu: nat, now: U64) returns (consumed: bool)
      requires Shape(cfg, View()) && cpu < cfg.topo.count
      modifies this`places, this`starvationSharedTs
      ensures consumed == old(Ready(View(), SHARED_DSQ, cpu))
      ensures View() == if consumed then Serve(old(View()), SHARED_DSQ, cpu, now) else old(View())
    {
      consumed := ScxConsume(SHARED_DSQ, cpu);
      if consumed {
        starvationSharedTs := now;
      }
    }

    /** consume_starving_tasks: serves exactly the forced sources. */
    method ConsumeStarvingTasks(cpu: nat, now: U64) returns (consumed: bool)
      requires Shape(cfg, View()) && cpu < cfg.topo.count
      modifies this`places, this`starvationSharedTs, this`starvationPrioTs
      ensures consumed == (SourceOf(cfg, old(View()), cpu, now).From? && SourceOf(cfg, old(View()), cpu, now).forced)
      ensures View() == if consumed then Serve(old(View()), SourceOf(cfg, old(View()), cpu, now).dsq, cpu, now)
                        else old(View())
    {
      consumed := false;
      if cfg.starveThresh == 0 {
        return;
      }
      if VtimeBefore(Wrap(starvationSharedTs + cfg.starveThresh), now) {
        consumed := ConsumeRegularTask(cpu, now);
        if consumed { return; }
      }
      if VtimeBefore(Wrap(starvationPrioTs + cfg.starveThresh), now) {
        consumed := ConsumePrioTask(cpu, now);
      }
    }

    /** The body of democracy_dispatch. */
    method ConsumeOne(cpu: nat, now: U64)
      requires Shape(cfg, View()) && cpu < cfg.topo.count
      modifies this
      ensures View() == DispatchStep(cfg, old(View()), cpu, now)
    {
      var consumed := ConsumeStarvingTasks(cpu, now);
      if !consumed {
        consumed := ScxConsume(cpu, cpu);
      }
      if !consumed {
        consumed := ConsumeOfflineCpus(cpu);
      }
      if !consumed {
        consumed := ConsumePrioTask(cpu, now);
      }
      if !consumed {
        consumed := ConsumeRegularTask(cpu, now);
      }
      ktime := now;
    }

    /** democracy_dispatch. */
    method Dispatch(cpu: nat, now: U64)
      requires Valid() && CanStep(cfg, View(), Event.Dispatch(cpu, now))
      modifies this
      ensures Valid() && View() == Step(cfg, old(View()), Event.Dispatch(cpu, now))
    {
      ConsumeOne(cpu, now);
      CallbackKeepsValid(Event.Dispatch(cpu, now));
    }

    // running, stopping, enable

    /** The update of the global vruntime in democracy_running. */
    method UpdateVtimeNow(vtime: U64)
      modifies this`vtimeNow
      ensures vtimeNow == AdvancedNow(old(vtimeNow), vtime)
    {
      if VtimeBefore(vtimeNow, vtime) {
        vtimeNow := vtime;
      }
    }

    /** What democracy_running does to the task itself. */
    method CapSlice(t: Task) returns (task: Task)
      ensures task == t.(slice := Min(t.slice, cfg.sliceNs))
    {
      task := t;
      if task.slice > cfg.sliceNs {
        task := task.(slice := cfg.sliceNs);
      }
    }

    /** The body of democracy_running. */
    method StartOnCpu(p: Pid)
      requires Known(View(), p) && places.loc[p].Local? && InRange(places, places.loc[p])
      modifies this
      ensures View() == RunStep(cfg, old(View()), p)
    {
      var task := tasks[p];
      UpdateVtimeNow(task.vtime);
      task := CapSlice(task);
      if task.ctx.interactive {
        nrInteractive := nrInteractive + 1;
      }
      nrRunning := nrRunning + 1;
      tasks := tasks[p := task];
      places := Relabel(Detach(places, p), p, Loc.Running(places.loc[p].cpu));
    }

    /** democracy_running. */
    method Running(p: Pid)
      requires Valid() && CanStep(cfg, View(), Event.Run(p))
      modifies this
      ensures Valid() && View() == Step(cfg, old(View()), Event.Run(p))
    {
      StartOnCpu(p);
      CallbackKeepsValid(Event.Run(p));
    }

    /** The sampling part of democracy_stopping. */
    method RefreshNvcsw(ctx: Ctx, now: U64, nvcsw: U64) returns (tctx: Ctx)
      ensures tctx == Reclassify(cfg, ctx, now, nvcsw)
    {
      tctx := ctx;
      var deltaT := AsSigned(Wrap(now - tctx.nvcswTs));
      if cfg.nvcswThresh != 0 && deltaT > NSEC_PER_SEC {
        var avgNvcsw := Rate(tctx, now, nvcsw);
        tctx := tctx.(avgNvcsw := CalcAvg(tctx.avgNvcsw, avgNvcsw));
        tctx := tctx.(nvcsw := nvcsw, nvcswTs := now);
        if tctx.avgNvcsw >= cfg.nvcswThresh {
          tctx := tctx.(interactive := true);
        } else if tctx.avgNvcsw == 0 {
          tctx := tctx.(interactive := false);
        }
      }
    }

    /** The vruntime part of democracy_stopping: charge the weighted used time slice. */
    method ChargeSlice(t: Task) returns (task: Task)
      requires t.weight >= 1
      ensures task == t.(vtime := Wrap(t.vtime + ChargeOf(cfg, t.slice, t.weight)))
    {
      task := t;
      if cfg.sliceNs > task.slice {
        var charge := Wrap((cfg.sliceNs - task.slice) * 100) / task.weight;
        task := task.(vtime := Wrap(task.vtime + charge));
      }
    }

    /** What democracy_stopping does to the task itself. */
    method ChargeAndSample(t: Task, now: U64, sliceLeft: U64, nvcsw: U64) returns (task: Task)
      requires t.weight >= 1
      ensures task == StoppedTask(cfg, t, now, sliceLeft, nvcsw)
    {
      task := ChargeSlice(t.(slice := sliceLeft));
      var tctx := RefreshNvcsw(task.ctx, now, nvcsw);
      task := task.(ctx := tctx);
    }

    /** The body of democracy_stopping. */
    method LeaveCpu(p: Pid, now: U64, sliceLeft: U64, nvcsw: U64, runnable: bool)
      requires Known(View(), p) && tasks[p].weight >= 1
      modifies this
      ensures View() == StopStep(cfg, old(View()), p, now, sliceLeft, nvcsw, runnable)
    {
      nrRunning := nrRunning - 1;
      if tasks[p].ctx.interactive { // still the class from before this sample
        nrInteractive := nrInteractive - 1;
      }
      var task := ChargeAndSample(tasks[p], now, sliceLeft, nvcsw);
      tasks := tasks[p := task];
      places := Relabel(places, p, if runnable then Handover else Asleep);
      ktime := now;
    }

    /** democracy_stopping; `sliceLeft` and `nvcsw` are the kernel's values of p->scx.slice and p->nvcsw. */
    method Stopping(p: Pid, now: U64, sliceLeft: U64, nvcsw: U64, runnable: bool)
      requires Valid() && CanStep(cfg, View(), Event.Stop(p, now, sliceLeft, nvcsw, runnable))
      modifies this
      ensures Valid() && View() == Step(cfg, old(View()), Event.Stop(p, now, sliceLeft, nvcsw, runnable))
    {
      LeaveCpu(p, now, sliceLeft, nvcsw, runnable);
      CallbackKeepsValid(Event.Stop(p, now, sliceLeft, nvcsw, runnable));
    }

    /** democracy_enable. */
    method Enable(p: Pid, now: U64)
      requires Valid() && CanStep(cfg, View(), Event.Enable(p, now))
      modifies this
      ensures Valid() && View() == Step(cfg, old(View()), Event.Enable(p, now))
    {
      var task := tasks[p].(vtime := vtimeNow);
      task := task.(ctx := task.ctx.(nvcswTs := now));
      tasks := tasks[p := task];
      places := Relabel(places, p, Asleep);
      ktime := now;
      CallbackKeepsValid(Event.Enable(p, now));
    }

    // hotplug

    /** set_cpu_state on offline_cpumask. */
    method SetCpuState(cpu: nat, state: bool) returns (previous: bool)
      modifies this`offlineCpumask
      ensures previous == (cpu in old(offlineCpumask))
      ensures offlineCpumask == if state then old(offlineCpumask) + {cpu} else old(offlineCpumask) - {cpu}
    {
      previous := cpu in offlineCpumask;
      offlineCpumask := if state then offlineCpumask + {cpu} else offlineCpumask - {cpu};
    }

    /** democracy_cpu_online. */
    method CpuOnline(cpu: nat)
      requires Valid() && CanStep(cfg, View(), Event.CpuOnline(cpu))
      modifies this
      ensures Valid() && View() == Step(cfg, old(View()), Event.CpuOnline(cpu))
    {
      var _ := SetCpuState(cpu, false);
      nrOnlineCpus := nrOnlineCpus + 1;
      masks := masks.(online := masks.online + {cpu});
      CallbackKeepsValid(Event.CpuOnline(cpu));
    }

    /** democracy_cpu_offline. */
    method CpuOffline(cpu: nat)
      requires Valid() && CanStep(cfg, View(), Event.CpuOffline(cpu))
      modifies this
      ensures Valid() && View() == Step(cfg, old(View()), Event.CpuOffline(cpu))
    {
      var _ := SetCpuState(cpu, true);
      nrOnlineCpus := nrOnlineCpus - 1;
      masks := masks.(online := masks.online - {cpu});
      CallbackKeepsValid(Event.CpuOffline(cpu));
    }
  }
}
