/** When tasks are sampled and classified, told from the events of a run. */
module VruntimeInteractivity {
  import opened Words
  import opened Ewma
  import opened Placement
  import opened IdleCpu
  import opened Vruntime
  import opened VruntimeInvariants
  import opened VruntimeRuns
  import opened VruntimeDecisions

  /** What an event at the end of a run makes of the time a task was last sampled, or enabled: a stop samples the
      task if that was more than a second ago. */
  predicate SampledBy(cfg: Config, last: nat, e: Event, p: Pid) {
    e.Stop? && e.p == p && cfg.nvcswThresh > 0 && e.now - last > 1_000_000_000
  }

  function LastRefresh(cfg: Config, es: seq<Event>, p: Pid): nat {
    if es == [] then 0
    else
      var last, e := LastRefresh(cfg, es[..|es| - 1], p), es[|es| - 1];
      if SampledBy(cfg, last, e, p) || (e.Enable? && e.p == p) then e.now else last
  }

  /** The context switches of a task when it was last sampled. */
  function LastCount(cfg: Config, es: seq<Event>, p: Pid): nat {
    if es == [] then 0
    else
      var e := es[|es| - 1];
      if SampledBy(cfg, LastRefresh(cfg, es[..|es| - 1], p), e, p) then e.nvcsw
      else LastCount(cfg, es[..|es| - 1], p)
  }

  /** What a context remembers of the last sample; a task that does not exist has none. */
  ghost predicate Remembers(s: State, p: Pid, last: nat, count: nat) {
    && last <= s.ktime
    && if p in s.tasks then s.tasks[p].ctx.nvcswTs == last && s.tasks[p].ctx.nvcsw == count
       else last == 0 && count == 0
  }

  lemma SinceLast(now: U64, last: U64)
    requires last <= now < TWO63
    ensures AsSigned(Wrap(now - last)) == now - last
  {
    SignedDifference(now, last);
    assert Wrap(now) == now && Wrap(last) == last;
  }

  lemma SampledMeans(cfg: Config, s: State, e: Event, p: Pid, last: nat, count: nat)
    requires Inv(cfg, s) && CanStep(cfg, s, e) && Remembers(s, p, last, count)
    ensures SampleIn(cfg, s, e, p) != [] <==> SampledBy(cfg, last, e, p)
  {
    if e.Stop? && e.p == p {
      SinceLast(e.now, last);
    }
  }

  lemma SelectKeepsMemory(cfg: Config, s: State, e: Event, p: Pid, last: nat, count: nat)
    requires Inv(cfg, s) && CanStep(cfg, s, e) && Remembers(s, p, last, count) && e.SelectCpu?
    ensures Remembers(Step(cfg, s, e), p, last, count)
  {
    var cpu, masks := PickedCpu(cfg, s, e.p, e.prev, e.sync, e.anySmt, e.anyIdle);
  }

  lemma OthersKeepMemory(cfg: Config, s: State, e: Event, p: Pid, last: nat, count: nat)
    requires Inv(cfg, s) && CanStep(cfg, s, e) && Remembers(s, p, last, count) && !e.SelectCpu? && !e.Stop?
    ensures Remembers(Step(cfg, s, e), p, if e.Enable? && e.p == p then e.now else last, count)
  {
  }

  lemma StopRefreshes(cfg: Config, s: State, e: Event, p: Pid, last: nat, count: nat)
    requires Inv(cfg, s) && CanStep(cfg, s, e) && Remembers(s, p, last, count) && e.Stop?
    ensures if SampledBy(cfg, last, e, p) then Remembers(Step(cfg, s, e), p, e.now, e.nvcsw)
            else Remembers(Step(cfg, s, e), p, last, count)
  {
    SampledMeans(cfg, s, e, p, last, count);
  }

  /** In every run the context of a task holds the time it was last sampled or enabled and its context switches at the
      last sample. */
  lemma {:induction false} ContextIsHistory(cfg: Config, s: State, es: seq<Event>, p: Pid)
    requires RunsFromStart(cfg, s, es)
    ensures Remembers(After(cfg, s, es), p, LastRefresh(cfg, es, p), LastCount(cfg, es, p))
  {
    if es == [] {
    } else {
      var front, e := es[..|es| - 1], es[|es| - 1];
      ContextIsHistory(cfg, s, front, p);
      var t, last, count := After(cfg, s, front), LastRefresh(cfg, front, p), LastCount(cfg, front, p);
      if e.SelectCpu? {
        SelectKeepsMemory(cfg, t, e, p, last, count);
      } else if e.Stop? {
        StopRefreshes(cfg, t, e, p, last, count);
      } else {
        OthersKeepMemory(cfg, t, e, p, last, count);
      }
    }
  }

  /** A rate per second, rounded down: the product is taken in 64 bits. */
  predicate IsRate(rate: nat, switches: nat, time: nat) {
    rate * time <= Wrap(switches * 1_000_000_000) < (rate + 1) * time
  }

  lemma QuotientIsRate(product: nat, time: nat)
    requires time > 0
    ensures (product / time) * time <= product < (product / time + 1) * time
  {
    assert product == time * (product / time) + product % time;
  }

  lemma RateIsRate(c: Ctx, now: U64, nvcsw: U64)
    requires c.nvcswTs < now < TWO63 && c.nvcsw <= nvcsw
    ensures AsSigned(Wrap(now - c.nvcswTs)) > 0
    ensures IsRate(Rate(c, now, nvcsw), nvcsw - c.nvcsw, now - c.nvcswTs)
  {
    SinceLast(now, c.nvcswTs);
    assert Delta(c, nvcsw) == nvcsw - c.nvcsw;
    QuotientIsRate(Wrap((nvcsw - c.nvcsw) * NSEC_PER_SEC), now - c.nvcswTs);
  }

  /** What a sample must be, told from the run before it. */
  ghost predicate RightSample(x: Sample, e: Event, last: nat, count: nat) {
    e.Stop? && count <= e.nvcsw && last <= e.now && x.delta == e.nvcsw - count && IsRate(x.rate, x.delta, e.now - last)
  }

  lemma SampleIsRight(c: Ctx, e: Event)
    requires e.Stop? && c.nvcswTs < e.now < TWO63 && c.nvcsw <= e.nvcsw
    ensures AsSigned(Wrap(e.now - c.nvcswTs)) > 0
    ensures RightSample(Sample(Delta(c, e.nvcsw), Rate(c, e.now, e.nvcsw)), e, c.nvcswTs, c.nvcsw)
  {
    RateIsRate(c, e.now, e.nvcsw);
    assert Delta(c, e.nvcsw) == e.nvcsw - c.nvcsw;
  }

  lemma SampleInStateIsRight(cfg: Config, s: State, e: Event, p: Pid, last: nat, count: nat)
    requires Inv(cfg, s) && CanStep(cfg, s, e) && Remembers(s, p, last, count) && SampledBy(cfg, last, e, p)
    ensures |SampleIn(cfg, s, e, p)| == 1 && RightSample(SampleIn(cfg, s, e, p)[0], e, last, count)
  {
    SampledMeans(cfg, s, e, p, last, count);
    SampleIsRight(s.tasks[p].ctx, e);
  }

  /** In every run a stop takes a sample of the task exactly if that is enabled and more than a second has gone by since
      the last one, or since the task was enabled; the sample is the context switches since then, and how many that
      is per second. */
  lemma SamplesAreHistory(cfg: Config, s: State, es: seq<Event>, e: Event, p: Pid)
    requires RunsFromStart(cfg, s, es) && CanStep(cfg, After(cfg, s, es), e)
    ensures var last, count := LastRefresh(cfg, es, p), LastCount(cfg, es, p);
            var samples := SampleIn(cfg, After(cfg, s, es), e, p);
            && |samples| == (if SampledBy(cfg, last, e, p) then 1 else 0)
            && (SampledBy(cfg, last, e, p) ==> RightSample(samples[0], e, last, count))
  {
    ContextIsHistory(cfg, s, es, p);
    var last, count := LastRefresh(cfg, es, p), LastCount(cfg, es, p);
    SampledMeans(cfg, After(cfg, s, es), e, p, last, count);
    if SampledBy(cfg, last, e, p) {
      SampleInStateIsRight(cfg, After(cfg, s, es), e, p, last, count);
    }
  }

  // Classes

  /** Whether a task is interactive after an event: a sample promotes it if its new average reaches the threshold and
      demotes it if that is zero; a sync wake-up promotes it while there is room; nothing else changes its class. */
  ghost predicate ClassAfter(cfg: Config, s: State, e: Event, t: State, p: Pid)
    requires p in s.tasks && p in t.tasks && Shape(cfg, s) && CanStep(cfg, s, e)
  {
    var avg := t.tasks[p].ctx.avgNvcsw;
    t.tasks[p].ctx.interactive <==>
      if SampleIn(cfg, s, e, p) != [] then avg >= cfg.nvcswThresh || (s.tasks[p].ctx.interactive && avg > 0)
      else s.tasks[p].ctx.interactive || (e.SelectCpu? && e.p == p && e.sync && RoomForInteractive(s))
  }

  lemma SelectClassifies(cfg: Config, s: State, e: Event, p: Pid)
    requires Inv(cfg, s) && CanStep(cfg, s, e) && p in s.tasks && e.SelectCpu?
    ensures p in Step(cfg, s, e).tasks && ClassAfter(cfg, s, e, Step(cfg, s, e), p)
  {
    var cpu, masks := PickedCpu(cfg, s, e.p, e.prev, e.sync, e.anySmt, e.anyIdle);
  }

  lemma StopClassifies(cfg: Config, s: State, e: Event, p: Pid)
    requires Inv(cfg, s) && CanStep(cfg, s, e) && p in s.tasks && e.Stop?
    ensures p in Step(cfg, s, e).tasks && ClassAfter(cfg, s, e, Step(cfg, s, e), p)
  {
    CtxAfterStep(cfg, s, e, p);
  }

  lemma OthersKeepClass(cfg: Config, s: State, e: Event, p: Pid)
    requires Inv(cfg, s) && CanStep(cfg, s, e) && p in s.tasks && !e.SelectCpu? && !e.Stop?
    ensures p in Step(cfg, s, e).tasks && ClassAfter(cfg, s, e, Step(cfg, s, e), p)
  {
  }

  /** In every reachable state every event leaves each task in the class that says, a new one as regular. */
  lemma StepClassifies(cfg: Config, s: State, e: Event, p: Pid)
    requires Inv(cfg, s) && CanStep(cfg, s, e)
    ensures p in s.tasks ==> p in Step(cfg, s, e).tasks && ClassAfter(cfg, s, e, Step(cfg, s, e), p)
    ensures p !in s.tasks && p in Step(cfg, s, e).tasks ==> !Step(cfg, s, e).tasks[p].ctx.interactive
  {
    if p in s.tasks {
      if e.SelectCpu? {
        SelectClassifies(cfg, s, e, p);
      } else if e.Stop? {
        StopClassifies(cfg, s, e, p);
      } else {
        OthersKeepClass(cfg, s, e, p);
      }
    } else if p in Step(cfg, s, e).tasks {
      assert e.InitTask?;
    }
  }
}
