/** Where the kernel keeps each task: in a dispatch queue (DSQ), in the local DSQ of a CPU, running,
    or nowhere. The four moves below are the only ones, and each keeps every task in one place. */
module Placement {

  type Pid = nat

  /** `Handover` is a runnable task between two callbacks, e.g. after select_cpu and before enqueue. */
  datatype Loc = Disabled | Asleep | Handover | Queued(dsq: nat) | Local(cpu: nat) | Running(cpu: nat)
  {
    predicate InQueue() { Queued? || Local? }
  }

  datatype Places = Places(dsqs: seq<seq<Pid>>, local: seq<seq<Pid>>, loc: map<Pid, Loc>)

  predicate At(pl: Places, p: Pid, l: Loc) {
    p in pl.loc && pl.loc[p] == l
  }

  function Count(q: seq<Pid>, p: Pid): nat {
    multiset(q)[p]
  }

  ghost predicate WellPlaced(pl: Places) {
    && (forall d, p | 0 <= d < |pl.dsqs| ::
          Count(pl.dsqs[d], p) == if At(pl, p, Queued(d)) then 1 else 0)
    && (forall c, p | 0 <= c < |pl.local| ::
          Count(pl.local[c], p) == if At(pl, p, Local(c)) then 1 else 0)
    && (forall p | p in pl.loc :: InRange(pl, pl.loc[p]))
    && SoleRunners(pl.loc)
  }

  /** No CPU runs two tasks. */
  ghost predicate SoleRunners(loc: map<Pid, Loc>) {
    forall c, p, q | Runs(loc, p, c) && Runs(loc, q, c) :: p == q
  }

  predicate Runs(loc: map<Pid, Loc>, p: Pid, c: nat) {
    p in loc && loc[p] == Running(c)
  }

  predicate InRange(pl: Places, l: Loc) {
    && (l.Queued? ==> l.dsq < |pl.dsqs|)
    && (l.Local? ==> l.cpu < |pl.local|)
    && (l.Running? ==> l.cpu < |pl.local|)
  }

  // Queue contents

  function InsertAt(q: seq<Pid>, i: nat, p: Pid): seq<Pid>
    requires i <= |q|
  {
    q[..i] + [p] + q[i..]
  }

  function Without(q: seq<Pid>, p: Pid): seq<Pid> {
    if q == [] then []
    else if q[0] == p then q[1..]
    else [q[0]] + Without(q[1..], p)
  }

  lemma InsertCounts(q: seq<Pid>, i: nat, p: Pid)
    requires i <= |q|
    ensures |InsertAt(q, i, p)| == |q| + 1
    ensures forall r :: Count(InsertAt(q, i, p), r) == Count(q, r) + if r == p then 1 else 0
  {
    assert q == q[..i] + q[i..];
    assert multiset(InsertAt(q, i, p)) == multiset(q) + multiset{p};
  }

  lemma {:induction false} WithoutCounts(q: seq<Pid>, p: Pid)
    ensures p in q ==> |Without(q, p)| == |q| - 1
    ensures p !in q ==> Without(q, p) == q
    ensures forall r :: Count(Without(q, p), r) == if r == p && p in q then Count(q, r) - 1 else Count(q, r)
  {
    if q == [] {
    } else {
      var tail := q[1..];
      assert q == [q[0]] + tail;
      assert forall r :: Count(q, r) == multiset{q[0]}[r] + Count(tail, r);
      if q[0] != p {
        WithoutCounts(tail, p);
        assert p in q <==> p in tail;
        assert multiset(Without(q, p)) == multiset{q[0]} + multiset(Without(tail, p));
        assert forall r :: Count(Without(q, p), r) == multiset{q[0]}[r] + Count(Without(tail, p), r);
      }
    }
  }

  lemma CountIsMembership(pl: Places)
    requires WellPlaced(pl)
    ensures forall d, p | 0 <= d < |pl.dsqs| :: p in pl.dsqs[d] <==> At(pl, p, Queued(d))
    ensures forall c, p | 0 <= c < |pl.local| :: p in pl.local[c] <==> At(pl, p, Local(c))
  {
    forall d, p | 0 <= d < |pl.dsqs|
      ensures p in pl.dsqs[d] <==> At(pl, p, Queued(d))
    {
      assert p in pl.dsqs[d] <==> Count(pl.dsqs[d], p) > 0;
    }
    forall c, p | 0 <= c < |pl.local|
      ensures p in pl.local[c] <==> At(pl, p, Local(c))
    {
      assert p in pl.local[c] <==> Count(pl.local[c], p) > 0;
    }
  }

  // The moves

  /** Take a task out of whatever queue holds it. */
  function Detach(pl: Places, p: Pid): Places
    requires p in pl.loc && InRange(pl, pl.loc[p])
  {
    var l := pl.loc[p];
    var out := pl.(loc := pl.loc[p := Handover]);
    match l
    case Queued(d) => out.(dsqs := pl.dsqs[d := Without(pl.dsqs[d], p)])
    case Local(c) => out.(local := pl.local[c := Without(pl.local[c], p)])
    case _ => out
  }

  function AttachDsq(pl: Places, p: Pid, d: nat, i: nat): Places
    requires d < |pl.dsqs| && i <= |pl.dsqs[d]|
  {
    pl.(dsqs := pl.dsqs[d := InsertAt(pl.dsqs[d], i, p)], loc := pl.loc[p := Queued(d)])
  }

  function AttachLocal(pl: Places, p: Pid, c: nat, i: nat): Places
    requires c < |pl.local| && i <= |pl.local[c]|
  {
    pl.(local := pl.local[c := InsertAt(pl.local[c], i, p)], loc := pl.loc[p := Local(c)])
  }

  /** Change the place of a task that is in no queue, to a place that is no queue. */
  function Relabel(pl: Places, p: Pid, l: Loc): Places
  {
    pl.(loc := pl.loc[p := l])
  }

  predicate OutOfQueues(pl: Places, p: Pid) {
    p in pl.loc ==> !pl.loc[p].InQueue()
  }

  predicate CpuFree(pl: Places, c: nat) {
    forall p | p in pl.loc :: !Runs(pl.loc, p, c)
  }

  lemma SoleRunnersKept(loc: map<Pid, Loc>, p: Pid, l: Loc)
    requires SoleRunners(loc)
    requires l.Running? ==> forall q | q in loc :: !Runs(loc, q, l.cpu)
    ensures SoleRunners(loc[p := l])
  {
    var after := loc[p := l];
    forall c, q, r | Runs(after, q, c) && Runs(after, r, c)
      ensures q == r
    {
      if q != p && r != p {
        assert Runs(loc, q, c) && Runs(loc, r, c);
      } else if q != p {
        assert Runs(loc, q, c);
      } else if r != p {
        assert Runs(loc, r, c);
      }
    }
  }

  lemma DetachQueuedKeeps(pl: Places, p: Pid)
    requires WellPlaced(pl) && p in pl.loc && pl.loc[p].Queued?
    ensures WellPlaced(Detach(pl, p))
  {
    SoleRunnersKept(pl.loc, p, Handover);
    WithoutCounts(pl.dsqs[pl.loc[p].dsq], p);
  }

  lemma DetachLocalKeeps(pl: Places, p: Pid)
    requires WellPlaced(pl) && p in pl.loc && pl.loc[p].Local?
    ensures WellPlaced(Detach(pl, p))
  {
    SoleRunnersKept(pl.loc, p, Handover);
    WithoutCounts(pl.local[pl.loc[p].cpu], p);
  }

  lemma DetachKeeps(pl: Places, p: Pid)
    requires WellPlaced(pl) && p in pl.loc
    ensures WellPlaced(Detach(pl, p)) && Detach(pl, p).loc == pl.loc[p := Handover]
    ensures |Detach(pl, p).dsqs| == |pl.dsqs| && |Detach(pl, p).local| == |pl.local|
  {
    match pl.loc[p]
    case Queued(_) => DetachQueuedKeeps(pl, p);
    case Local(_) => DetachLocalKeeps(pl, p);
    case _ => SoleRunnersKept(pl.loc, p, Handover);
  }

  lemma AttachDsqKeeps(pl: Places, p: Pid, d: nat, i: nat)
    requires WellPlaced(pl) && OutOfQueues(pl, p) && d < |pl.dsqs| && i <= |pl.dsqs[d]|
    ensures WellPlaced(AttachDsq(pl, p, d, i))
  {
    SoleRunnersKept(pl.loc, p, Queued(d));
    InsertCounts(pl.dsqs[d], i, p);
  }

  lemma AttachLocalKeeps(pl: Places, p: Pid, c: nat, i: nat)
    requires WellPlaced(pl) && OutOfQueues(pl, p) && c < |pl.local| && i <= |pl.local[c]|
    ensures WellPlaced(AttachLocal(pl, p, c, i))
  {
    SoleRunnersKept(pl.loc, p, Local(c));
    InsertCounts(pl.local[c], i, p);
  }

  lemma RelabelKeeps(pl: Places, p: Pid, l: Loc)
    requires WellPlaced(pl) && OutOfQueues(pl, p) && !l.InQueue() && InRange(pl, l)
    requires l.Running? ==> CpuFree(pl, l.cpu)
    ensures WellPlaced(Relabel(pl, p, l))
  {
    SoleRunnersKept(pl.loc, p, l);
  }

  // One place for each task

  /** How many times a task occurs in a list of queues. */
  ghost function Occurrences(qs: seq<seq<Pid>>, p: Pid): nat {
    if qs == [] then 0 else Occurrences(qs[..|qs| - 1], p) + Count(qs[|qs| - 1], p)
  }

  /** The number of places that hold a task: queue entries, local queue entries and CPUs. */
  ghost function Holders(pl: Places, p: Pid): nat {
    Occurrences(pl.dsqs, p) + Occurrences(pl.local, p) + |CpusRunning(pl, p)|
  }

  ghost function CpusRunning(pl: Places, p: Pid): set<nat> {
    set c: nat | c < |pl.local| && At(pl, p, Running(c))
  }

  lemma {:induction false} SingleOccurrence(qs: seq<seq<Pid>>, p: Pid, at: int)
    requires forall d | 0 <= d < |qs| :: Count(qs[d], p) == if d == at then 1 else 0
    ensures Occurrences(qs, p) == if 0 <= at < |qs| then 1 else 0
  {
    if qs == [] {
    } else {
      SingleOccurrence(qs[..|qs| - 1], p, at);
    }
  }

  /** A task is held by exactly one queue entry or CPU if its place is a queue or a CPU, and by none
      otherwise: no task is lost, duplicated, or queued while it runs. */
  lemma OnePlaceForEachTask(pl: Places, p: Pid)
    requires WellPlaced(pl)
    ensures Holders(pl, p) == if p in pl.loc && (pl.loc[p].InQueue() || pl.loc[p].Running?) then 1 else 0
  {
    var d := if p in pl.loc && pl.loc[p].Queued? then pl.loc[p].dsq else -1;
    var c := if p in pl.loc && pl.loc[p].Local? then pl.loc[p].cpu else -1;
    SingleOccurrence(pl.dsqs, p, d);
    SingleOccurrence(pl.local, p, c);
    if p in pl.loc && pl.loc[p].Running? {
      assert CpusRunning(pl, p) == {pl.loc[p].cpu};
    } else {
      assert CpusRunning(pl, p) == {};
    }
  }
}
