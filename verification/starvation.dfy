/** Consequences, over whole runs, of the rule by which dispatch serves overdue queues. The log of a run
    has one entry for each dispatch. */
module Starvation {
  import opened Arithmetic
  import opened Vruntime

  /** One dispatch: when and for which CPU, the queue it served, and which queues had a task for it. */
  datatype Entry = Entry(time: nat, cpu: nat, src: Source, sharedReady: bool, prioReady: bool, ownReady: bool)

  type Log = seq<Entry>

  predicate Serves(e: Entry, d: nat) {
    e.src.From? && e.src.dsq == d
  }

  /** The time a queue was last served, or `start` if it never was. */
  function LastServed(log: Log, d: nat, start: nat): nat {
    if log == [] then start
    else if Serves(log[|log| - 1], d) then log[|log| - 1].time
    else LastServed(log[..|log| - 1], d, start)
  }

  predicate Due(thresh: nat, last: nat, now: nat) {
    thresh > 0 && last + thresh < now
  }

  /** The rule: an overdue SHARED_DSQ first, then an overdue PRIO_DSQ, then the CPU's own queue. */
  predicate FollowsRule(thresh: nat, lastShared: nat, lastPrio: nat, e: Entry) {
    if Due(thresh, lastShared, e.time) && e.sharedReady then e.src == From(SHARED_DSQ, true)
    else if Due(thresh, lastPrio, e.time) && e.prioReady then e.src == From(PRIO_DSQ, true)
    else (e.src.From? ==> !e.src.forced) && (e.ownReady ==> e.src == From(e.cpu, false))
  }

  /** A log in which time does not go back and every entry follows the rule. */
  ghost predicate RuleLog(thresh: nat, shared0: nat, prio0: nat, log: Log) {
    && (forall i, j :: 0 <= i < j < |log| ==> log[i].time <= log[j].time)
    && (forall i :: 0 <= i < |log| ==> shared0 <= log[i].time && prio0 <= log[i].time && log[i].cpu < MAX_CPUS)
    && (forall i :: 0 <= i < |log| ==> RuleAt(thresh, shared0, prio0, log, i))
  }

  predicate RuleAt(thresh: nat, shared0: nat, prio0: nat, log: Log, i: nat)
    requires i < |log|
  {
    FollowsRule(thresh, LastServed(log[..i], SHARED_DSQ, shared0), LastServed(log[..i], PRIO_DSQ, prio0), log[i])
  }

  lemma RuleLooksBack(thresh: nat, shared0: nat, prio0: nat, log: Log, e: Entry, i: nat)
    requires i < |log|
    ensures RuleAt(thresh, shared0, prio0, log + [e], i) == RuleAt(thresh, shared0, prio0, log, i)
  {
    assert (log + [e])[..i] == log[..i];
  }

  lemma RuleLogGrows(thresh: nat, shared0: nat, prio0: nat, log: Log, e: Entry)
    requires RuleLog(thresh, shared0, prio0, log) && e.cpu < MAX_CPUS
    requires shared0 <= e.time && prio0 <= e.time && forall i :: 0 <= i < |log| ==> log[i].time <= e.time
    requires RuleAt(thresh, shared0, prio0, log + [e], |log|)
    ensures RuleLog(thresh, shared0, prio0, log + [e])
  {
    var longer := log + [e];
    forall i | 0 <= i < |log|
      ensures RuleAt(thresh, shared0, prio0, longer, i)
    {
      RuleLooksBack(thresh, shared0, prio0, log, e, i);
    }
  }

  lemma {:induction false} LastServedAtLeast(log: Log, d: nat, start: nat, i: nat)
    requires forall i, j :: 0 <= i < j < |log| ==> log[i].time <= log[j].time
    requires i < |log| && Serves(log[i], d)
    ensures LastServed(log, d, start) >= log[i].time
  {
    if i < |log| - 1 && !Serves(log[|log| - 1], d) {
      LastServedAtLeast(log[..|log| - 1], d, start, i);
    }
  }

  /** A dispatch that finds SHARED_DSQ unserved for longer than the threshold, and a task in it that it
      may run, takes that task. */
  lemma OverdueSharedIsServed(thresh: nat, shared0: nat, prio0: nat, log: Log, i: nat)
    requires RuleLog(thresh, shared0, prio0, log) && i < |log|
    requires thresh > 0 && LastServed(log[..i], SHARED_DSQ, shared0) + thresh < log[i].time && log[i].sharedReady
    ensures log[i].src == From(SHARED_DSQ, true)
  {
    assert RuleAt(thresh, shared0, prio0, log, i);
  }

  /** An overdue PRIO_DSQ with a task for the CPU is served, by force, unless SHARED_DSQ is overdue as well
      and has one too. */
  lemma OverduePrioIsServedIff(thresh: nat, shared0: nat, prio0: nat, log: Log, i: nat)
    requires RuleLog(thresh, shared0, prio0, log) && i < |log|
    requires thresh > 0 && LastServed(log[..i], PRIO_DSQ, prio0) + thresh < log[i].time && log[i].prioReady
    ensures log[i].src == From(PRIO_DSQ, true) <==>
            log[i].time <= LastServed(log[..i], SHARED_DSQ, shared0) + thresh || !log[i].sharedReady
  {
    assert RuleAt(thresh, shared0, prio0, log, i);
  }

  /** A queue that is not served between two entries keeps its time of last service. */
  lemma {:induction false} UnservedKeepsTime(log: Log, d: nat, start: nat, i: nat, j: nat)
    requires i <= j <= |log| && forall k :: i <= k < j ==> !Serves(log[k], d)
    ensures LastServed(log[..j], d, start) == LastServed(log[..i], d, start)
    decreases j - i
  {
    if i < j {
      UnservedKeepsTime(log, d, start, i, j - 1);
      assert log[..j][..j - 1] == log[..j - 1];
    }
  }

  /** When an overdue PRIO_DSQ was passed over for SHARED_DSQ, the next dispatch, if it finds a task in
      PRIO_DSQ, takes that exactly if it comes within the threshold or finds nothing in SHARED_DSQ. */
  lemma PassedOverPrioIsNext(thresh: nat, shared0: nat, prio0: nat, log: Log, i: nat)
    requires RuleLog(thresh, shared0, prio0, log) && i + 1 < |log|
    requires thresh > 0 && log[i].src == From(SHARED_DSQ, true)
    requires LastServed(log[..i], PRIO_DSQ, prio0) + thresh < log[i].time && log[i + 1].prioReady
    ensures log[i + 1].src == From(PRIO_DSQ, true) <==>
            log[i + 1].time <= log[i].time + thresh || !log[i + 1].sharedReady
  {
    assert log[..i + 1][..i] == log[..i];
    OverduePrioIsServedIff(thresh, shared0, prio0, log, i + 1);
  }

  /** And as long as PRIO_DSQ is not served, any dispatch within the threshold that finds a task in it takes
      that: so the first one that can, does. */
  lemma PassedOverPrioIsServed(thresh: nat, shared0: nat, prio0: nat, log: Log, i: nat, j: nat)
    requires RuleLog(thresh, shared0, prio0, log) && i < j < |log|
    requires thresh > 0 && log[i].src == From(SHARED_DSQ, true)
    requires LastServed(log[..i], PRIO_DSQ, prio0) + thresh < log[i].time
    requires forall k :: i < k < j ==> !Serves(log[k], PRIO_DSQ)
    requires log[j].time <= log[i].time + thresh && log[j].prioReady
    ensures log[j].src == From(PRIO_DSQ, true)
  {
    UnservedKeepsTime(log, PRIO_DSQ, prio0, i, j);
    LastServedAtLeast(log[..j], SHARED_DSQ, shared0, i);
    OverduePrioIsServedIff(thresh, shared0, prio0, log, j);
  }

  /** There is no such promise for PRIO_DSQ when dispatches come further apart than the threshold: while
      SHARED_DSQ has tasks, each of them takes from SHARED_DSQ, however long PRIO_DSQ waits. */
  lemma {:induction false} WideGapsStarvePrio(thresh: nat, shared0: nat, prio0: nat, log: Log, i: nat, j: nat)
    requires RuleLog(thresh, shared0, prio0, log) && i <= j < |log| && thresh > 0
    requires log[i].src == From(SHARED_DSQ, true)
    requires forall k :: i < k <= j ==> log[k - 1].time + thresh < log[k].time && log[k].sharedReady
    ensures log[j].src == From(SHARED_DSQ, true)
    decreases j - i
  {
    if i < j {
      WideGapsStarvePrio(thresh, shared0, prio0, log, i, j - 1);
      assert log[..j][|log[..j]| - 1] == log[j - 1];
      OverdueSharedIsServed(thresh, shared0, prio0, log, j);
    }
  }

  // Forced service is rare

  predicate Forced(e: Entry, d: nat) {
    e.src == From(d, true)
  }

  /** Two forced services of the same queue are more than the threshold apart. */
  lemma ForcedAreApart(thresh: nat, shared0: nat, prio0: nat, log: Log, d: nat, i: nat, j: nat)
    requires RuleLog(thresh, shared0, prio0, log) && i < j < |log|
    requires d == SHARED_DSQ || d == PRIO_DSQ
    requires Forced(log[i], d) && Forced(log[j], d)
    ensures log[i].time + thresh < log[j].time
  {
    LastServedAtLeast(log[..j], d, if d == SHARED_DSQ then shared0 else prio0, i);
    assert RuleAt(thresh, shared0, prio0, log, j);
  }

  /** Counts over the entries from `a` up to `b`: forced services of a queue, dispatches of a CPU, and
      those of them that took from the CPU's own queue. */
  function ForcedCount(log: Log, d: nat, a: nat, b: nat): nat
    requires a <= b <= |log|
  {
    if a == b then 0 else ForcedCount(log, d, a, b - 1) + if Forced(log[b - 1], d) then 1 else 0
  }

  function CpuCount(log: Log, cpu: nat, a: nat, b: nat): nat
    requires a <= b <= |log|
  {
    if a == b then 0 else CpuCount(log, cpu, a, b - 1) + if log[b - 1].cpu == cpu then 1 else 0
  }

  function OwnCount(log: Log, cpu: nat, a: nat, b: nat): nat
    requires a <= b <= |log|
  {
    if a == b then 0
    else OwnCount(log, cpu, a, b - 1) + if log[b - 1].cpu == cpu && Serves(log[b - 1], cpu) then 1 else 0
  }

  /** The least time n services take that are more than `thresh` apart. */
  function MinSpan(n: nat, thresh: nat): nat {
    if n <= 1 then 0 else MinSpan(n - 1, thresh) + thresh + 1
  }

  lemma {:induction false} MinSpanIsProduct(n: nat, thresh: nat)
    requires n > 0
    ensures MinSpan(n, thresh) == (n - 1) * (thresh + 1)
  {
    if n > 1 {
      MinSpanIsProduct(n - 1, thresh);
      assert (n - 1) * (thresh + 1) == (n - 2) * (thresh + 1) + (thresh + 1);
    }
  }

  lemma {:induction false} ForcedTakeTime(thresh: nat, shared0: nat, prio0: nat, log: Log, d: nat, a: nat, b: nat)
      returns (last: nat)
    requires RuleLog(thresh, shared0, prio0, log) && a <= b <= |log|
    requires d == SHARED_DSQ || d == PRIO_DSQ
    requires ForcedCount(log, d, a, b) > 0
    ensures a <= last < b && Forced(log[last], d)
    ensures MinSpan(ForcedCount(log, d, a, b), thresh) <= log[last].time - log[a].time
  {
    if ForcedCount(log, d, a, b - 1) == 0 {
      last := b - 1;
    } else {
      last := ForcedTakeTime(thresh, shared0, prio0, log, d, a, b - 1);
      if Forced(log[b - 1], d) {
        ForcedAreApart(thresh, shared0, prio0, log, d, last, b - 1);
        last := b - 1;
      }
    }
  }

  /** How many forced services of one queue fit in a time window of length `w`. */
  function Quota(w: nat, thresh: nat): nat {
    1 + w / (thresh + 1)
  }

  lemma SpanBoundsCount(n: nat, thresh: nat, w: nat)
    requires MinSpan(n, thresh) <= w
    ensures n <= Quota(w, thresh)
  {
    if n > 0 {
      MinSpanIsProduct(n, thresh);
      QuotientAtLeast(n - 1, thresh + 1, w);
    } else {
      QuotientAtLeast(0, thresh + 1, w);
    }
  }

  /** A time window of length `w` holds at most 1 + w / (threshold + 1) forced services of a queue. */
  lemma ForcedAreFew(thresh: nat, shared0: nat, prio0: nat, log: Log, d: nat, a: nat, b: nat, w: nat)
    requires RuleLog(thresh, shared0, prio0, log) && a < b <= |log|
    requires d == SHARED_DSQ || d == PRIO_DSQ
    requires log[b - 1].time - log[a].time <= w
    ensures ForcedCount(log, d, a, b) <= Quota(w, thresh)
  {
    if ForcedCount(log, d, a, b) > 0 {
      var last := ForcedTakeTime(thresh, shared0, prio0, log, d, a, b);
    }
    SpanBoundsCount(ForcedCount(log, d, a, b), thresh, w);
  }

  /** A CPU whose own queue always has a task for it is diverted only by forced services. */
  lemma {:induction false} OwnUnlessForced(thresh: nat, shared0: nat, prio0: nat, log: Log, cpu: nat, a: nat, b: nat)
    requires RuleLog(thresh, shared0, prio0, log) && a <= b <= |log|
    requires forall k :: a <= k < b && log[k].cpu == cpu ==> log[k].ownReady
    ensures CpuCount(log, cpu, a, b)
         <= OwnCount(log, cpu, a, b) + ForcedCount(log, SHARED_DSQ, a, b) + ForcedCount(log, PRIO_DSQ, a, b)
  {
    if a < b {
      OwnUnlessForced(thresh, shared0, prio0, log, cpu, a, b - 1);
      assert RuleAt(thresh, shared0, prio0, log, b - 1);
    }
  }

  /** So of the dispatches of such a CPU in a window of length `w`, all but 2 * (1 + w / (threshold + 1))
      take from the CPU's own queue. */
  lemma DiversionIsBounded(thresh: nat, shared0: nat, prio0: nat, log: Log, cpu: nat, a: nat, b: nat, w: nat)
    requires RuleLog(thresh, shared0, prio0, log) && a < b <= |log|
    requires log[b - 1].time - log[a].time <= w
    requires forall k :: a <= k < b && log[k].cpu == cpu ==> log[k].ownReady
    ensures OwnCount(log, cpu, a, b) >= CpuCount(log, cpu, a, b) - 2 * Quota(w, thresh)
  {
    OwnUnlessForced(thresh, shared0, prio0, log, cpu, a, b);
    ForcedAreFew(thresh, shared0, prio0, log, SHARED_DSQ, a, b, w);
    ForcedAreFew(thresh, shared0, prio0, log, PRIO_DSQ, a, b, w);
  }
}
