/** The hysteresis of FIFO mode, over sequences of timer ticks. */
module FifoMode {
  import opened Words
  import opened Arithmetic
  import opened Rustland

  /** What a tick sees: the tasks waiting for user space, and the tasks running. */
  datatype Tick = Tick(waiting: U64, running: int)

  /** FIFO mode and the moving average after a sequence of ticks. */
  function AfterTicks(cfg: Config, fifo: bool, avg: U64, ticks: seq<Tick>): (bool, U64) {
    if ticks == [] then (fifo, avg)
    else
      var (f, a) := AfterTicks(cfg, fifo, avg, ticks[..|ticks| - 1]);
      FifoTick(cfg, f, a, ticks[|ticks| - 1].waiting, ticks[|ticks| - 1].running)
  }

  function Pow2(k: nat): nat {
    if k == 0 then 1 else 2 * Pow2(k - 1)
  }

  lemma {:induction false} Pow2Positive(k: nat)
    ensures Pow2(k) > 0
  {
    if k > 0 {
      Pow2Positive(k - 1);
    }
  }

  /** FIFO mode implies that it is enabled and that the moving average is zero. */
  predicate FifoInv(cfg: Config, fifo: bool, avg: U64) {
    fifo ==> cfg.fifoSched && avg == 0
  }

  lemma TickKeepsFifoInv(cfg: Config, fifo: bool, avg: U64, waiting: U64, running: int)
    requires FifoInv(cfg, fifo, avg)
    ensures var (f, a) := FifoTick(cfg, fifo, avg, waiting, running); FifoInv(cfg, f, a)
  {
  }

  /** A tick outside FIFO mode, when the sum does not wrap. */
  lemma TickAverages(cfg: Config, avg: U64, waiting: U64, running: int)
    requires avg + waiting < TWO64
    ensures FifoTick(cfg, false, avg, waiting, running)
         == if cfg.fifoSched then ((avg + waiting) / 2 == 0, (avg + waiting) / 2) else (false, avg)
  {
    assert Wrap(avg + waiting) == avg + waiting;
  }

  function HalvedTimes(avg: nat, k: nat): nat {
    if k == 0 then avg else HalvedTimes(avg, k - 1) / 2
  }

  lemma {:induction false} HalvedTimesIsQuotient(avg: nat, k: nat)
    ensures Pow2(k) > 0 && HalvedTimes(avg, k) == avg / Pow2(k)
  {
    Pow2Positive(k);
    if k > 0 {
      HalvedTimesIsQuotient(avg, k - 1);
      HalveQuotient(avg, Pow2(k - 1));
    }
  }

  lemma {:induction false} IdleTicksKeepHalving(cfg: Config, avg: U64, ticks: seq<Tick>)
    requires cfg.fifoSched
    requires forall i :: 0 <= i < |ticks| ==> ticks[i].waiting == 0
    ensures var (f, a) := AfterTicks(cfg, false, avg, ticks);
            a == HalvedTimes(avg, |ticks|) <= avg && (a != 0 ==> !f)
  {
    if ticks == [] {
    } else {
      var front := ticks[..|ticks| - 1];
      IdleTicksKeepHalving(cfg, avg, front);
      TickAverages(cfg, HalvedTimes(avg, |front|), 0, ticks[|ticks| - 1].running);
    }
  }

  /** Ticks with nothing waiting divide the average by exactly 2^k, rounded down, and cannot enter FIFO
      mode before it reaches zero. */
  lemma IdleTicksHalve(cfg: Config, avg: U64, ticks: seq<Tick>)
    requires cfg.fifoSched
    requires forall i :: 0 <= i < |ticks| ==> ticks[i].waiting == 0
    ensures Pow2(|ticks|) > 0
    ensures var (f, a) := AfterTicks(cfg, false, avg, ticks);
            a == avg / Pow2(|ticks|) && (a != 0 ==> !f)
  {
    IdleTicksKeepHalving(cfg, avg, ticks);
    HalvedTimesIsQuotient(avg, |ticks|);
  }

  /** No tick outside FIFO mode makes a sum of 2^64 or more. */
  predicate SumsFit(cfg: Config, avg: U64, ticks: seq<Tick>) {
    ticks == [] || (
      && SumsFit(cfg, avg, ticks[..|ticks| - 1])
      && AfterTicks(cfg, false, avg, ticks[..|ticks| - 1]).1 + ticks[|ticks| - 1].waiting < TWO64)
  }

  /** A tick that sees at least 2^(j+1) waiting tasks keeps FIFO mode off for itself and the next j. */
  lemma {:induction false} BusyTickHoldsOffFifo(cfg: Config, avg: U64, busy: Tick, ticks: seq<Tick>, j: nat)
    requires Pow2(j + 1) <= busy.waiting && |ticks| <= j && SumsFit(cfg, avg, [busy] + ticks)
    ensures var (f, a) := AfterTicks(cfg, false, avg, [busy] + ticks);
            !f && (cfg.fifoSched ==> Pow2(j - |ticks|) <= a)
  {
    Pow2Positive(j - |ticks|);
    assert ([busy] + ticks)[..|ticks|] == if ticks == [] then [] else [busy] + ticks[..|ticks| - 1];
    if ticks == [] {
      TickAverages(cfg, avg, busy.waiting, busy.running);
    } else {
      var front, last := ticks[..|ticks| - 1], ticks[|ticks| - 1];
      BusyTickHoldsOffFifo(cfg, avg, busy, front, j);
      TickAverages(cfg, AfterTicks(cfg, false, avg, [busy] + front).1, last.waiting, last.running);
    }
  }

  /** Outside FIFO mode one tick enters it exactly if it is enabled and average and waiting tasks add up, in
      64 bits, to at most one: so a single waiting task does not keep it off, nor does a sum that wraps. */
  lemma FifoEnteredIff(cfg: Config, avg: U64, waiting: U64, running: int)
    ensures FifoTick(cfg, false, avg, waiting, running).0 <==> cfg.fifoSched && Wrap(avg + waiting) <= 1
    ensures cfg.fifoSched && avg + waiting == TWO64 ==> FifoTick(cfg, false, avg, waiting, running).0
  {
    if avg + waiting == TWO64 {
      assert Wrap(avg + waiting) == 0;
    }
  }

  /** The rational average of the waiting tasks: half the old one and half of what a tick sees. */
  ghost function ExactWaiting(avg: U64, ticks: seq<Tick>): real {
    if ticks == [] then avg as real
    else (ExactWaiting(avg, ticks[..|ticks| - 1]) + ticks[|ticks| - 1].waiting as real) / 2.0
  }

  /** Every one of the ticks comes outside FIFO mode. */
  predicate StaysOut(cfg: Config, avg: U64, ticks: seq<Tick>) {
    ticks == [] || (
      && StaysOut(cfg, avg, ticks[..|ticks| - 1])
      && !AfterTicks(cfg, false, avg, ticks[..|ticks| - 1]).0)
  }

  lemma HalfTracks(a: nat, w: nat, exact: real)
    requires 0.0 <= exact - a as real < 1.0
    ensures 0.0 <= (exact + w as real) / 2.0 - ((a + w) / 2) as real < 1.0
  {
    var h := (a + w) / 2;
    assert a + w == 2 * h + (a + w) % 2;
    assert a as real + w as real == 2.0 * h as real + ((a + w) % 2) as real;
  }

  /** The average of the source never exceeds the rational one, nor falls short of it by 1 or more. */
  lemma {:induction false} WaitingTracksExact(cfg: Config, avg: U64, ticks: seq<Tick>)
    requires cfg.fifoSched && SumsFit(cfg, avg, ticks) && StaysOut(cfg, avg, ticks)
    ensures 0.0 <= ExactWaiting(avg, ticks) - AfterTicks(cfg, false, avg, ticks).1 as real < 1.0
  {
    if ticks == [] {
    } else {
      var front, last := ticks[..|ticks| - 1], ticks[|ticks| - 1];
      WaitingTracksExact(cfg, avg, front);
      var a := AfterTicks(cfg, false, avg, front).1;
      TickAverages(cfg, a, last.waiting, last.running);
      HalfTracks(a, last.waiting, ExactWaiting(avg, front));
    }
  }
}
