/** Choosing an idle CPU for a task that wakes up, over the kernel's CPU masks. */
module IdleCpu {

  const ENOENT: int := 2

  datatype Masks = Masks(online: set<nat>, idle: set<nat>, smt: set<nat>)

  /** The CPUs of the machine: ids below `count`, and for each the set of CPUs sharing its core. */
  datatype Topology = Topology(count: nat, core: seq<set<nat>>)

  function Siblings(t: Topology, cpu: nat): set<nat> {
    if cpu < |t.core| then t.core[cpu] + {cpu} else {cpu}
  }

  /** bpf_cpumask_test_cpu: an id that is no CPU is in no mask. */
  predicate TestCpu(t: Topology, cpu: int, mask: set<nat>) {
    0 <= cpu < t.count && cpu in mask
  }

  /** scx_bpf_test_and_clear_cpu_idle: claim a CPU if it is idle; its core stops being fully idle. */
  function TestAndClearIdle(t: Topology, m: Masks, cpu: int): (bool, Masks) {
    if 0 <= cpu < t.count
    then (cpu in m.idle, m.(idle := m.idle - {cpu}, smt := m.smt - Siblings(t, cpu)))
    else (false, m)
  }

  /** bpf_cpumask_first: the smallest CPU of a mask, or the CPU count. */
  function FirstCpu(t: Topology, mask: set<nat>, from: nat): (r: nat)
    ensures r < t.count ==> r in mask
    ensures forall c :: from <= c < r && c < t.count ==> c !in mask
    decreases t.count - from
  {
    if from >= t.count || from in mask then from else FirstCpu(t, mask, from + 1)
  }

  /** What bpf_cpumask_any_and_distribute may return for two masks: some common CPU, or no CPU. */
  predicate AnyAnd(t: Topology, a: set<nat>, b: set<nat>, r: int) {
    if a * b == {} then r >= t.count else r >= 0 && r in a * b
  }

  /** The same without knowing the second mask, which may be out of date. */
  predicate AnyFrom(t: Topology, a: set<nat>, r: int) {
    r >= t.count || (r >= 0 && r in a)
  }

  /** The idle CPU for a task allowed on `cpus`, or -ENOENT, and the masks afterwards. `anySmt` and
      `anyIdle` are the CPUs the two searches of the masks come up with. */
  function PickIdle(t: Topology, smtEnabled: bool, m: Masks, cpus: set<nat>, prev: int,
                    anySmt: int, anyIdle: int): (int, Masks)
  {
    if |cpus| == 1 then
      var cpu := FirstCpu(t, cpus, 0);
      var (got, m1) := TestAndClearIdle(t, m, cpu);
      if got then (cpu, m1) else (-ENOENT, m1)
    else
      var (c, m1) := if smtEnabled then PickFullIdle(t, m, cpus, prev, anySmt) else (-ENOENT, m);
      if c >= 0 then (c, m1) else PickAnyIdle(t, m1, cpus, prev, anyIdle)
  }

  function PickFullIdle(t: Topology, m: Masks, cpus: set<nat>, prev: int, anySmt: int): (int, Masks) {
    var (got, m1) := if TestCpu(t, prev, cpus) && TestCpu(t, prev, m.smt)
                     then TestAndClearIdle(t, m, prev) else (false, m);
    if got then (prev, m1) else
    var (gotAny, m2) := if TestCpu(t, anySmt, m1.online) then TestAndClearIdle(t, m1, anySmt) else (false, m1);
    if gotAny then (anySmt, m2) else (-ENOENT, m2)
  }

  function PickAnyIdle(t: Topology, m: Masks, cpus: set<nat>, prev: int, anyIdle: int): (int, Masks) {
    var (got, m1) := if TestCpu(t, prev, cpus) then TestAndClearIdle(t, m, prev) else (false, m);
    if got then (prev, m1) else
    var (gotAny, m2) := if TestCpu(t, anyIdle, m1.online) then TestAndClearIdle(t, m1, anyIdle) else (false, m1);
    if gotAny then (anyIdle, m2) else (-ENOENT, m2)
  }

  predicate WithinTopology(t: Topology, cpus: set<nat>) {
    forall c :: c in cpus ==> c < t.count
  }

  lemma FirstOfSingleton(t: Topology, cpus: set<nat>)
    requires |cpus| == 1 && WithinTopology(t, cpus)
    ensures cpus == {FirstCpu(t, cpus, 0)}
  {
    var c :| c in cpus;
    assert |cpus - {c}| == 0;
    assert cpus == {c};
  }

  /** Whatever CPUs of the task's mask the two searches come up with, be it from masks that are out of date: a
      CPU that is returned was idle, is one the task may use, and is the only CPU claimed; if none is returned
      none is claimed. */
  lemma PickIsSound(t: Topology, smtEnabled: bool, m: Masks, cpus: set<nat>, prev: int, anySmt: int, anyIdle: int)
    requires WithinTopology(t, cpus) && AnyFrom(t, cpus, anySmt) && AnyFrom(t, cpus, anyIdle)
    ensures var (cpu, m1) := PickIdle(t, smtEnabled, m, cpus, prev, anySmt, anyIdle);
            && m1.online == m.online && m1.smt <= m.smt
            && (cpu >= 0 ==> cpu in cpus && cpu < t.count && cpu in m.idle && m1.idle == m.idle - {cpu})
            && (cpu < 0 ==> cpu == -ENOENT && m1.idle == m.idle)
  {
    if |cpus| == 1 {
      FirstOfSingleton(t, cpus);
    }
  }

  /** With consistent masks and no race the search is complete: -ENOENT means that no allowed CPU is
      idle, and on an SMT machine a fully idle core is used whenever an allowed one exists. */
  lemma PickIsComplete(t: Topology, smtEnabled: bool, m: Masks, cpus: set<nat>, prev: int, anySmt: int, anyIdle: int)
    requires WithinTopology(t, cpus)
    requires m.smt <= m.idle <= m.online
    requires AnyAnd(t, cpus, m.smt, anySmt) && AnyAnd(t, cpus, m.idle, anyIdle)
    ensures var (cpu, _) := PickIdle(t, smtEnabled, m, cpus, prev, anySmt, anyIdle);
            && (cpu == -ENOENT <==> cpus * m.idle == {})
            && (smtEnabled && cpus * m.smt != {} ==> cpu >= 0 && cpu in m.smt)
  {
    if |cpus| == 1 {
      FirstOfSingleton(t, cpus);
      var c := FirstCpu(t, cpus, 0);
      assert c in m.idle <==> c in cpus * m.idle;
      assert cpus * m.smt != {} ==> c in cpus * m.smt;
    } else {
      if TestCpu(t, prev, cpus) && prev in m.idle { assert prev in cpus * m.idle; }
      if cpus * m.smt != {} {
        assert anySmt in m.smt && anySmt in m.idle && anySmt in cpus * m.idle;
      } else if TestCpu(t, prev, cpus) && TestCpu(t, prev, m.smt) {
        assert prev in cpus * m.smt;
      }
    }
  }

  /** The previous CPU is kept exactly if it is idle and allowed, and no fully idle core is preferred to it. */
  lemma PrevIsKeptIff(t: Topology, smtEnabled: bool, m: Masks, cpus: set<nat>, prev: int, anySmt: int, anyIdle: int)
    requires WithinTopology(t, cpus)
    requires m.smt <= m.idle <= m.online
    requires AnyAnd(t, cpus, m.smt, anySmt) && AnyAnd(t, cpus, m.idle, anyIdle)
    ensures 0 <= prev && PickIdle(t, smtEnabled, m, cpus, prev, anySmt, anyIdle).0 == prev <==>
              && 0 <= prev && prev in cpus && prev in m.idle
              && (smtEnabled && cpus * m.smt != {} ==> prev in m.smt)
  {
    if |cpus| == 1 {
      FirstOfSingleton(t, cpus);
      var c := FirstCpu(t, cpus, 0);
      if cpus * m.smt != {} {
        assert c in cpus * m.smt;
      }
    } else if cpus * m.smt != {} {
      assert anySmt in m.smt && anySmt in cpus;
    } else if 0 <= prev && prev in cpus {
      assert prev !in cpus * m.smt;
    }
  }

  /** Sharing a core is symmetric, and a fully idle core is one all of whose CPUs are idle. */
  ghost predicate CoresTracked(t: Topology, m: Masks) {
    && (forall c, d | 0 <= c < t.count && 0 <= d < t.count :: c in Siblings(t, d) <==> d in Siblings(t, c))
    && (forall c, d :: c in m.smt && d in Siblings(t, c) ==> d in m.idle && d < t.count)
  }

  /** Claiming a CPU that was not idle changes nothing, and claiming one that was takes its whole core from the fully
      idle ones. */
  lemma ClaimTracksCores(t: Topology, m: Masks, cpu: int)
    requires CoresTracked(t, m) && m.smt <= m.idle && WithinTopology(t, m.idle)
    ensures var (got, m1) := TestAndClearIdle(t, m, cpu);
            && CoresTracked(t, m1) && m1.smt <= m1.idle
            && (got <==> 0 <= cpu && cpu in m.idle)
            && m1 == if got then m.(idle := m.idle - {cpu}, smt := m.smt - Siblings(t, cpu)) else m
  {
    var (got, m1) := TestAndClearIdle(t, m, cpu);
    if 0 <= cpu < t.count {
      forall c | c in m.smt && c in Siblings(t, cpu) ensures cpu in m.idle {
        assert c < t.count && cpu in Siblings(t, c);
      }
      forall c, d | c in m1.smt && d in Siblings(t, c) ensures d in m1.idle && d < t.count {
        assert c in m.smt && c !in Siblings(t, cpu);
      }
      if !got {
        assert m.idle - {cpu} == m.idle && m.smt - Siblings(t, cpu) == m.smt;
      }
    }
  }

  /** So the search keeps track of the cores, whatever CPUs the two mask searches come up with, and changes the masks
      by nothing but the claim it makes. */
  lemma PickTracksCores(t: Topology, smtEnabled: bool, m: Masks, cpus: set<nat>, prev: int, anySmt: int, anyIdle: int)
    requires CoresTracked(t, m) && m.smt <= m.idle && WithinTopology(t, m.idle)
    ensures var (cpu, m1) := PickIdle(t, smtEnabled, m, cpus, prev, anySmt, anyIdle);
            && CoresTracked(t, m1) && m1.smt <= m1.idle
            && m1 == if cpu >= 0 then m.(idle := m.idle - {cpu}, smt := m.smt - Siblings(t, cpu)) else m
  {
    if |cpus| == 1 {
      ClaimTracksCores(t, m, FirstCpu(t, cpus, 0));
    } else {
      ClaimTracksCores(t, m, prev);
      ClaimTracksCores(t, m, anySmt);
      ClaimTracksCores(t, m, anyIdle);
    }
  }
}
