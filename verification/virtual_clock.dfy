/** The virtual clock of the vruntime scheduler, on unbounded integers: the global vtime_now and the
    dsq_vtime of every enabled task. The u64 operations of the source compare with vtime_before. */
module VirtualClock {
  import opened Words

  type Pid = nat

  datatype Clock = Clock(now: int, vtime: map<Pid, int>, running: set<Pid>)

  /** What a scheduler callback does to the clock. */
  datatype Op =
    | Nothing
    | Admit(p: Pid)                 // enable: start at vtime_now
    | Retire(p: Pid)                // the task leaves the scheduling class
    | Place(p: Pid)                 // dispatch: clamp to vtime_now - lag
    | Advance(p: Pid)               // running: push vtime_now forward
    | Charge(p: Pid, amount: nat)   // stopping: add the weighted used slice

  const START := Clock(0, map[], {})

  /** When the kernel performs an operation. `bound` is the largest charge, 100 * slice_ns. */
  predicate Legal(bound: nat, c: Clock, op: Op) {
    match op
    case Nothing => true
    case Admit(p) => p !in c.vtime && p !in c.running
    case Retire(p) => p in c.vtime && p !in c.running
    case Place(p) => p in c.vtime && p !in c.running
    case Advance(p) => p in c.vtime && p !in c.running
    case Charge(p, amount) => p in c.vtime && p in c.running && amount <= bound
  }

  function Ideal(lag: nat, bound: nat, c: Clock, op: Op): (r: Clock)
    requires Legal(bound, c, op)
    ensures r.now >= c.now
  {
    match op
    case Nothing => c
    case Admit(p) => c.(vtime := c.vtime[p := c.now])
    case Retire(p) => c.(vtime := c.vtime - {p})
    case Place(p) => c.(vtime := c.vtime[p := Max(c.vtime[p], c.now - lag)])
    case Advance(p) => c.(now := Max(c.now, c.vtime[p]), running := c.running + {p})
    case Charge(p, amount) => c.(vtime := c.vtime[p := c.vtime[p] + amount], running := c.running - {p})
  }

  /** task_vtime on words. */
  function ClampedVtime(lag: U64, now: U64, vtime: U64): U64 {
    if VtimeBefore(vtime, Wrap(now - lag)) then Wrap(now - lag) else vtime
  }

  /** The update of vtime_now in running, on words. */
  function AdvancedNow(now: U64, vtime: U64): U64 {
    if VtimeBefore(now, vtime) then vtime else now
  }

  /** The task an operation is about is not too late for the words: one that is dispatched lags
      `vtime_now - lag` by at most half a circle, and one that starts to run lags vtime_now by less. */
  predicate InTime(lag: nat, c: Clock, op: Op) {
    match op
    case Place(p) => p in c.vtime ==> c.now - lag - TWO63 <= c.vtime[p]
    case Advance(p) => p in c.vtime ==> c.now - TWO63 < c.vtime[p]
    case _ => true
  }

  /** Or by less than a full circle. */
  predicate WithinCircle(lag: nat, c: Clock, op: Op) {
    match op
    case Place(p) => p in c.vtime ==> c.now - lag - TWO64 < c.vtime[p]
    case Advance(p) => p in c.vtime ==> c.now - TWO64 < c.vtime[p]
    case _ => true
  }

  /** No task is ahead of vtime_now by more than one full charge, and a running one is not ahead. */
  predicate Bounded(bound: nat, c: Clock) {
    && c.running <= c.vtime.Keys
    && forall p :: p in c.vtime ==>
         c.vtime[p] <= c.now + (if p in c.running then 0 else bound)
  }

  lemma BoundedPreserved(lag: nat, bound: nat, c: Clock, op: Op)
    requires Legal(bound, c, op) && Bounded(bound, c)
    ensures Bounded(bound, Ideal(lag, bound, c, op))
  {
  }

  /** For a task no more than one charge ahead: as long as it is not too late, either comparison of the source
      is integer `<`, and the word it produces is the word of the integer result. */
  lemma WordsAgree(lag: U64, bound: nat, now: int, vtime: int)
    requires lag + bound < TWO63 && vtime <= now + bound
    ensures now - lag - TWO63 <= vtime ==>
              && (VtimeBefore(Wrap(vtime), Wrap(Wrap(now) - lag)) <==> vtime < now - lag)
              && ClampedVtime(lag, Wrap(now), Wrap(vtime)) == Wrap(Max(vtime, now - lag))
    ensures now - TWO63 < vtime ==>
              && (VtimeBefore(Wrap(now), Wrap(vtime)) <==> now < vtime)
              && AdvancedNow(Wrap(now), Wrap(vtime)) == Wrap(Max(now, vtime))
  {
    WrapOfSum(now, lag);
    if now - lag - TWO63 <= vtime {
      BeforeIsLess(vtime, now - lag);
    }
    if now - TWO63 < vtime {
      BeforeIsLess(now, vtime);
    }
  }

  /** Both comparisons of the source, made on words, come out as integer `<` does. */
  ghost predicate ComparesAs(lag: U64, nowWord: U64, vtimeWord: U64, now: int, vtime: int) {
    && (VtimeBefore(vtimeWord, Wrap(nowWord - lag)) <==> vtime < now - lag)
    && (VtimeBefore(nowWord, vtimeWord) <==> now < vtime)
  }

  lemma StoredWordsCompare(lag: U64, bound: nat, c: Clock, p: Pid, nowWord: U64, vtimeWord: U64)
    requires lag + bound < TWO63
    requires Bounded(bound, c) && p in c.vtime && c.now - TWO63 < c.vtime[p]
    requires nowWord == Wrap(c.now) && vtimeWord == Wrap(c.vtime[p])
    ensures ComparesAs(lag, nowWord, vtimeWord, c.now, c.vtime[p])
  {
    WordsAgree(lag, bound, c.now, c.vtime[p]);
  }

  /** The signed difference of the stored words is the difference of the integers, so it has their bound. */
  lemma StoredTimeIsBounded(bound: nat, c: Clock, p: Pid, nowWord: U64, vtimeWord: U64)
    requires bound < TWO63 && Bounded(bound, c) && p in c.vtime && c.now - TWO63 <= c.vtime[p]
    requires nowWord == Wrap(c.now) && vtimeWord == Wrap(c.vtime[p])
    ensures AsSigned(Wrap(vtimeWord - nowWord)) == c.vtime[p] - c.now
    ensures AsSigned(Wrap(vtimeWord - nowWord)) <= if p in c.running then 0 else bound
  {
    SignedDifference(c.vtime[p], c.now);
  }

  /** No operation takes the global time back, or forward by more than one full charge. */
  lemma OperationAdvances(lag: nat, bound: nat, c: Clock, op: Op)
    requires bound < TWO63 && Bounded(bound, c) && Legal(bound, c, op)
    ensures var r := Ideal(lag, bound, c, op);
            0 <= AsSigned(Wrap(Wrap(r.now) - Wrap(c.now))) == r.now - c.now <= bound
  {
    SignedDifference(Ideal(lag, bound, c, op).now, c.now);
  }

  /** No premise can be dropped: for a task less than a full circle from `now - lag`, the u64 clamp gives the
      integer result exactly when the task is at most half a circle behind that point, which a late task
      may not be, and less than half a circle ahead of it, which a large lag option prevents. */
  lemma ClampIsRightIff(lag: U64, now: int, vtime: int)
    requires -TWO64 < vtime - (now - lag) < TWO64
    ensures ClampedVtime(lag, Wrap(now), Wrap(vtime)) == Wrap(Max(vtime, now - lag))
            <==> -TWO63 <= vtime - (now - lag) < TWO63
  {
    WrapOfSum(now, lag);
    BeforeIsHalfCircleParity(vtime, now - lag);
    var d := vtime - (now - lag);
    if d < -TWO63 {
      assert d / TWO63 == -2;
      DistinctWords(vtime, now - lag);
    } else if d < 0 {
      assert d / TWO63 == -1;
    } else if d < TWO63 {
      assert d / TWO63 == 0;
    } else {
      assert d / TWO63 == 1;
      DistinctWords(now - lag, vtime);
    }
  }

  /** The update of vtime_now is the integer maximum exactly while the task is less than half a circle behind:
      one that lags further takes the clock back. */
  lemma AdvanceIsRightIff(now: int, vtime: int)
    requires -TWO64 < vtime - now < TWO64
    ensures AdvancedNow(Wrap(now), Wrap(vtime)) == Wrap(Max(now, vtime)) <==> -TWO63 < vtime - now <= TWO63
    ensures -TWO64 < vtime - now <= -TWO63 ==> AdvancedNow(Wrap(now), Wrap(vtime)) == Wrap(vtime)
  {
    BeforeIsHalfCircleParity(now, vtime);
    var d := now - vtime;
    if d < -TWO63 {
      assert d / TWO63 == -2;
      DistinctWords(now, vtime);
    } else if d < 0 {
      assert d / TWO63 == -1;
    } else if d < TWO63 {
      assert d / TWO63 == 0;
    } else {
      assert d / TWO63 == 1;
      DistinctWords(vtime, now);
    }
  }

  /** A late task that is dispatched and then runs, with the clock unchanged in between, leaves it alone exactly if
      it lagged by at most half a circle and the lag option: that much the clamp makes up for. */
  lemma ClampSparesClockIff(lag: U64, now: int, vtime: int)
    requires 0 < now - vtime < TWO64 && lag < TWO63
    ensures AdvancedNow(Wrap(now), ClampedVtime(lag, Wrap(now), Wrap(vtime))) == Wrap(now)
            <==> now - vtime <= TWO63 + lag
  {
    WrapOfSum(now, lag);
    BeforeIsHalfCircleParity(vtime, now - lag);
    AdvanceIsRightIff(now, vtime);
    AdvanceIsRightIff(now, now - lag);
    DistinctWords(vtime, now);
    var d := vtime - (now - lag);
    if d < -TWO63 {
      assert d / TWO63 == -2;
    } else if d < 0 {
      assert d / TWO63 == -1;
    } else {
      assert d / TWO63 == 0;
    }
  }

  lemma DistinctWords(a: int, b: int)
    requires 0 < b - a < TWO64
    ensures Wrap(a) != Wrap(b)
  {
    assert a == TWO64 * (a / TWO64) + Wrap(a);
    assert b == TWO64 * (b / TWO64) + Wrap(b);
  }

  /** Nor can the bound on the lag option: a task ahead of vtime_now by half a circle less the lag is
      taken for a late one and set back to `vtime_now - lag`. */
  lemma HugeLagSetsTasksBack(lag: U64, now: int, vtime: int)
    requires TWO63 <= lag + (vtime - now) < TWO64
    ensures ClampedVtime(lag, Wrap(now), Wrap(vtime)) == Wrap(now - lag)
  {
    WrapOfSum(now, lag);
    BeforeIsHalfCircleParity(vtime, now - lag);
    assert (vtime - (now - lag)) / TWO63 == 1;
  }
}
