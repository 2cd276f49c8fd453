/** What a task pays for the time slices it uses. */
module VruntimeCharges {
  import opened Words
  import opened Arithmetic
  import opened Placement
  import opened Vruntime
  import opened VruntimeInvariants
  import opened VirtualClock
  import opened VruntimeClock

  /** The part of a full slice that is gone when `sliceLeft` is left. */
  function UsedTime(cfg: Config, sliceLeft: U64): nat {
    if sliceLeft < cfg.sliceNs then cfg.sliceNs - sliceLeft else 0
  }

  /** A charge of v pays for the used time at the given weight, rounded down. */
  predicate PaysFor(weight: nat, used: nat, v: int) {
    weight * v <= 100 * used < weight * (v + 1)
  }

  lemma ChargePays(cfg: Config, sliceLeft: U64, weight: U64)
    requires ValidConfig(cfg) && weight >= 1
    ensures PaysFor(weight, UsedTime(cfg, sliceLeft), ChargeOf(cfg, sliceLeft, weight))
  {
    var used := 100 * UsedTime(cfg, sliceLeft);
    assert Wrap(used) == used;
    QuotientPays(used, weight);
  }

  lemma QuotientPays(used: nat, weight: nat)
    requires weight >= 1
    ensures weight * (used / weight) <= used < weight * (used / weight + 1)
    ensures weight * 0 == 0 < weight * (0 + 1)
  {
    assert used == weight * (used / weight) + used % weight;
  }

  /** When a task stops, the stored word of its virtual time grows by what pays for the part of the slice it used. */
  lemma StopChargesUsedTime(cfg: Config, s: State, p: Pid, now: U64, sliceLeft: U64, nvcsw: U64, runnable: bool)
    requires Inv(cfg, s) && CanStep(cfg, s, Stop(p, now, sliceLeft, nvcsw, runnable))
    ensures var t := StopStep(cfg, s, p, now, sliceLeft, nvcsw, runnable);
            PaysFor(s.tasks[p].weight, UsedTime(cfg, sliceLeft),
                    AsSigned(Wrap(t.tasks[p].vtime - s.tasks[p].vtime)))
  {
    var charge := ChargeOf(cfg, sliceLeft, s.tasks[p].weight);
    ChargePays(cfg, sliceLeft, s.tasks[p].weight);
    ChargeIsBounded(cfg, sliceLeft, s.tasks[p].weight);
    GrowthIsCharge(s.tasks[p].vtime, charge);
  }

  lemma GrowthIsCharge(v: U64, charge: nat)
    requires charge < TWO63
    ensures AsSigned(Wrap(Wrap(v + charge) - v)) == charge
  {
    assert Wrap(v) == v;
    SignedDifference(v + charge, v);
  }

  // Over whole runs

  /** The used parts of the slices of a task, added up; by how much its integer time has grown at its stops; and
      how many stops there were. */
  datatype Bill = Bill(used: nat, charged: int, stops: nat)

  predicate StopOf(e: Event, p: Pid) {
    e.Stop? && e.p == p
  }

  function Growth(c: Clock, d: Clock, p: Pid): int {
    if p in c.vtime && p in d.vtime then d.vtime[p] - c.vtime[p] else 0
  }

  /** The bill after one event, which takes the clock from c to d. */
  function Billed(cfg: Config, b: Bill, e: Event, c: Clock, d: Clock, p: Pid): Bill {
    if StopOf(e, p) then Bill(b.used + UsedTime(cfg, e.sliceLeft), b.charged + Growth(c, d, p), b.stops + 1) else b
  }

  ghost function BillOf(cfg: Config, s: State, es: seq<Event>, p: Pid): Bill
    requires RunsFromStart(cfg, s, es)
  {
    if es == [] then Bill(0, 0, 0)
    else
      var front := es[..|es| - 1];
      Billed(cfg, BillOf(cfg, s, front, p), es[|es| - 1], IdealClock(cfg, s, front), IdealClock(cfg, s, es), p)
  }

  lemma SelectKeepsWeights(cfg: Config, s: State, e: Event, p: Pid)
    requires Inv(cfg, s) && CanStep(cfg, s, e) && p in s.tasks && e.SelectCpu?
    ensures p in Step(cfg, s, e).tasks && Step(cfg, s, e).tasks[p].weight == s.tasks[p].weight
  {
    var cpu, masks := PickedCpu(cfg, s, e.p, e.prev, e.sync, e.anySmt, e.anyIdle);
  }

  lemma WeightsStay(cfg: Config, s: State, e: Event, p: Pid)
    requires Inv(cfg, s) && CanStep(cfg, s, e) && p in s.tasks
    ensures p in Step(cfg, s, e).tasks && Step(cfg, s, e).tasks[p].weight == s.tasks[p].weight
  {
    if e.SelectCpu? {
      SelectKeepsWeights(cfg, s, e, p);
    }
  }

  lemma StopGrows(cfg: Config, s: State, e: Event, c: Clock, p: Pid)
    requires Inv(cfg, s) && CanStep(cfg, s, e) && SameTasks(s.places.loc, c) && StopOf(e, p)
    requires Legal(Bound(cfg), c, OpOf(cfg, s, e))
    ensures PaysFor(s.tasks[p].weight, UsedTime(cfg, e.sliceLeft), Growth(c, IdealStep(cfg, s, e, c), p))
  {
    ChargePays(cfg, e.sliceLeft, s.tasks[p].weight);
  }

  /** Charges that add up to what pays for the used time, but for less than one unit for each stop. */
  predicate PaysInAll(weight: nat, b: Bill) {
    weight * b.charged <= 100 * b.used <= weight * (b.charged + b.stops)
  }

  lemma PaymentsAdd(weight: nat, b: Bill, more: nat, v: int)
    requires PaysInAll(weight, b) && PaysFor(weight, more, v)
    ensures PaysInAll(weight, Bill(b.used + more, b.charged + v, b.stops + 1))
  {
    assert weight * (b.charged + v) == weight * b.charged + weight * v;
    assert weight * (b.charged + v + (b.stops + 1)) == weight * (b.charged + b.stops) + weight * (v + 1);
  }

  /** A task that exists has paid for the time it has used. */
  ghost predicate Paid(s: State, p: Pid, b: Bill) {
    if p in s.tasks then PaysInAll(s.tasks[p].weight, b) else b == Bill(0, 0, 0)
  }

  lemma NothingIsPaidFor(weight: nat)
    ensures PaysInAll(weight, Bill(0, 0, 0))
  {
  }

  lemma PaidAfterStop(cfg: Config, s: State, e: Event, c: Clock, p: Pid, b: Bill)
    requires Inv(cfg, s) && CanStep(cfg, s, e) && SameTasks(s.places.loc, c) && StopOf(e, p)
    requires Legal(Bound(cfg), c, OpOf(cfg, s, e)) && Paid(s, p, b)
    ensures Paid(Step(cfg, s, e), p, Billed(cfg, b, e, c, IdealStep(cfg, s, e, c), p))
  {
    StopGrows(cfg, s, e, c, p);
    WeightsStay(cfg, s, e, p);
    PaymentsAdd(s.tasks[p].weight, b, UsedTime(cfg, e.sliceLeft), Growth(c, IdealStep(cfg, s, e, c), p));
  }

  lemma PaidAfterOther(cfg: Config, s: State, e: Event, p: Pid, b: Bill)
    requires Inv(cfg, s) && CanStep(cfg, s, e) && !StopOf(e, p) && Paid(s, p, b)
    ensures Paid(Step(cfg, s, e), p, b)
  {
    if p in s.tasks {
      WeightsStay(cfg, s, e, p);
    } else if p in Step(cfg, s, e).tasks {
      NothingIsPaidFor(Step(cfg, s, e).tasks[p].weight);
    }
  }

  lemma PaidAfterStep(cfg: Config, s: State, e: Event, c: Clock, p: Pid, b: Bill)
    requires Inv(cfg, s) && CanStep(cfg, s, e) && SameTasks(s.places.loc, c)
    requires Legal(Bound(cfg), c, OpOf(cfg, s, e)) && Paid(s, p, b)
    ensures Paid(Step(cfg, s, e), p, Billed(cfg, b, e, c, IdealStep(cfg, s, e, c), p))
  {
    if StopOf(e, p) {
      PaidAfterStop(cfg, s, e, c, p, b);
    } else {
      PaidAfterOther(cfg, s, e, p, b);
    }
  }

  /** In every run the integer time of a task has grown, at its stops, by its weighted used time, within one unit for
      each stop. */
  lemma {:induction false} ChargesAddUp(cfg: Config, s: State, es: seq<Event>, p: Pid)
    requires RunsFromStart(cfg, s, es)
    ensures Paid(After(cfg, s, es), p, BillOf(cfg, s, es, p))
  {
    if es == [] {
    } else {
      var front, e := es[..|es| - 1], es[|es| - 1];
      ChargesAddUp(cfg, s, front, p);
      StepTracks(cfg, After(cfg, s, front), e, IdealClock(cfg, s, front));
      PaidAfterStep(cfg, After(cfg, s, front), e, IdealClock(cfg, s, front), p, BillOf(cfg, s, front, p));
    }
  }
}
