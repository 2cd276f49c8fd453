/** The user-space loop: drain the queue of tasks, ask who leads the vote, dispatch the winner's latest
    message. The HTTP request for the tallies is a parameter, and sleeping and logging are left out. */
module UserLoop {
  import opened Words
  import opened Rustland

  datatype Option<T> = None | Some(value: T)

  const SLICE_NS: U64 := 100_000_000
  const WIN_NS: U64 := 1_000_000_000

  // The vote

  datatype Competitor = Summer1 | Summer2

  datatype Vote = Vote(name: string, count: nat)

  /** to_lowercase; no character outside ASCII has a letter of a competitor's name as its lower case. */
  function Lower(s: string): string {
    seq(|s|, i requires 0 <= i < |s| => if 'A' <= s[i] <= 'Z' then (s[i] as int + 32) as char else s[i])
  }

  function FromStr(s: string): Option<Competitor> {
    if Lower(s) == "summer1" then Some(Summer1)
    else if Lower(s) == "summer2" then Some(Summer2)
    else None
  }

  /** The same letter of a name, or its upper case. */
  predicate SameLetter(x: char, y: char) {
    x == y || ('a' <= y <= 'z' && x as int + 32 == y as int)
  }

  /** A name says which competitor it is, letter by letter and whatever the case. */
  predicate Names(name: string, c: Competitor) {
    var word := if c.Summer1? then "summer1" else "summer2";
    |name| == |word| && forall i :: 0 <= i < |word| ==> SameLetter(name[i], word[i])
  }

  lemma LowerIsSpelled(s: string, word: string)
    requires forall i :: 0 <= i < |word| ==> !('A' <= word[i] <= 'Z')
    ensures Lower(s) == word <==> |s| == |word| && forall i :: 0 <= i < |word| ==> SameLetter(s[i], word[i])
  {
    if Lower(s) == word {
      forall i | 0 <= i < |word| ensures SameLetter(s[i], word[i]) {
        assert Lower(s)[i] == word[i];
      }
    }
  }

  lemma FromStrReadsNames(s: string, c: Competitor)
    ensures FromStr(s) == Some(c) <==> Names(s, c)
  {
    LowerIsSpelled(s, "summer1");
    LowerIsSpelled(s, "summer2");
    assert "summer1"[6] != "summer2"[6];
  }

  /** The tally the loop of get_current_winner ends with. */
  function Leading(votes: seq<Vote>): Vote {
    if votes == [] then Vote("", 0)
    else
      var best := Leading(votes[..|votes| - 1]);
      if votes[|votes| - 1].count > best.count then votes[|votes| - 1] else best
  }

  /** get_current_winner; no tallies stands for a failed request. */
  function CurrentWinner(votes: Option<seq<Vote>>): Option<Competitor> {
    if votes.None? then None else FromStr(Leading(votes.value).name)
  }

  /** The first of the tallies that have the largest, non-zero, number of votes. */
  predicate FirstMaximum(votes: seq<Vote>, i: nat) {
    && i < |votes| && votes[i].count > 0
    && (forall j :: 0 <= j < |votes| ==> votes[j].count <= votes[i].count)
    && (forall j :: 0 <= j < i ==> votes[j].count < votes[i].count)
  }

  /** Where the leading tally is, or -1 if there are no votes at all. */
  lemma {:induction false} LeadingIsFirstMaximum(votes: seq<Vote>) returns (i: int)
    ensures -1 <= i < |votes|
    ensures i < 0 ==> Leading(votes) == Vote("", 0)
    ensures i >= 0 ==> FirstMaximum(votes, i) && votes[i] == Leading(votes)
    ensures forall j :: 0 <= j < |votes| ==> votes[j].count <= Leading(votes).count
  {
    if votes == [] {
      i := -1;
    } else {
      var n := |votes| - 1;
      var k := LeadingIsFirstMaximum(votes[..n]);
      var best := Leading(votes[..n]);
      assert forall j :: 0 <= j < n ==> votes[j] == votes[..n][j] && votes[j].count <= best.count;
      i := if votes[n].count > best.count then n else k;
    }
  }

  /** A competitor wins exactly if the first maximum names it: nobody wins with all tallies at zero, with an
      unknown name in front, or without an answer. */
  lemma WinnerIsFirstMaximum(votes: seq<Vote>, c: Competitor)
    ensures CurrentWinner(None) == None
    ensures CurrentWinner(Some(votes)) == Some(c) <==>
            exists i: nat :: FirstMaximum(votes, i) && Names(votes[i].name, c)
  {
    var k := LeadingIsFirstMaximum(votes);
    FromStrReadsNames("", c);
    FromStrReadsNames(Leading(votes).name, c);
    if i: nat :| FirstMaximum(votes, i) && Names(votes[i].name, c) {
      assert i == k;
    }
  }

  /** get_current_winner. */
  method GetCurrentWinner(votes: Option<seq<Vote>>) returns (r: Option<Competitor>)
    ensures r == CurrentWinner(votes)
  {
    if votes.None? {
      return None;
    }
    var tallies := votes.value;
    var winner := Vote("", 0);
    for i := 0 to |tallies|
      invariant winner == Leading(tallies[..i])
    {
      assert tallies[..i + 1][..i] == tallies[..i];
      if tallies[i].count > winner.count {
        winner := tallies[i];
      }
    }
    assert tallies[..|tallies|] == tallies;
    r := FromStr(winner.name);
  }

  // The state of the loop

  datatype Tracked = Tracked(vruntime: U64, msg: QMsg)

  type TaskMap = map<Pid, Option<Tracked>>

  type Owners = map<Competitor, Pid>

  /** Both competitors own one of the two tracked tasks, and what is tracked is a message of the task. */
  predicate WellOwned(owners: Owners, tm: TaskMap) {
    && Summer1 in owners && Summer2 in owners && owners[Summer1] != owners[Summer2]
    && tm.Keys == {owners[Summer1], owners[Summer2]}
    && forall p :: p in tm && tm[p].Some? ==> tm[p].value.msg.pid == p
  }

  /** A message from the queue: remembered if it is about a tracked task, dropped otherwise. */
  function Note(tm: TaskMap, m: QMsg): TaskMap {
    if m.pid in tm then tm[m.pid := Some(Tracked(0, m))] else tm
  }

  function NoteAll(tm: TaskMap, q: seq<QMsg>): TaskMap
    decreases |q|
  {
    if q == [] then tm else NoteAll(Note(tm, q[0]), q[1..])
  }

  /** The task the winner owns, if there is a winner and it has sent a message. */
  function Chosen(owners: Owners, tm: TaskMap, votes: Option<seq<Vote>>): Option<Tracked>
    requires WellOwned(owners, tm)
  {
    match CurrentWinner(votes)
    case None => None
    case Some(c) => tm[if c.Summer1? then owners[Summer1] else owners[Summer2]]
  }

  /** DispatchedTask::new and set_slice_ns. */
  function DispatchOf(q: QMsg): DMsg {
    DMsg(q.pid, q.cpu, q.cnt, false, false, SLICE_NS, q.exiting, q.stamp)
  }

  function Credited(tm: TaskMap, chosen: Option<Tracked>): TaskMap {
    match chosen
    case None => tm
    case Some(t) => tm[t.msg.pid := Some(t.(vruntime := Wrap(t.vruntime + WIN_NS)))]
  }

  /** A message back to the backend says of its task what the message it answers said: also the CPU. */
  predicate Answers(m: DMsg, q: QMsg) {
    && m.pid == q.pid && m.cpu == q.cpu && m.cnt == q.cnt && m.exiting == q.exiting && m.stamp == q.stamp
    && !m.anyCpu && !m.preempt && m.slice == 100_000_000
  }

  /** The first of the largest tallies names the competitor. */
  predicate Leads(votes: Option<seq<Vote>>, i: nat, c: Competitor) {
    votes.Some? && FirstMaximum(votes.value, i) && Names(votes.value[i].name, c)
  }

  /** With a competitor in front, its tracked message is answered if the ring has room; with none, nothing is. */
  ghost predicate Obeys(owners: Owners, tm: TaskMap, votes: Option<seq<Vote>>, room: bool, added: seq<DMsg>)
    requires WellOwned(owners, tm)
  {
    && (forall i, c :: Leads(votes, i, c) ==>
          if c.Summer1? then Answered(tm[owners[Summer1]], owners[Summer1], room, added)
          else Answered(tm[owners[Summer2]], owners[Summer2], room, added))
    && ((forall i, c :: !Leads(votes, i, c)) ==> added == [])
  }

  predicate Answered(entry: Option<Tracked>, p: Pid, room: bool, added: seq<DMsg>) {
    if entry.Some? && room then |added| == 1 && added[0].pid == p && Answers(added[0], entry.value.msg)
    else added == []
  }

  lemma ChoiceObeysVote(owners: Owners, tm: TaskMap, votes: Option<seq<Vote>>, room: bool)
    requires WellOwned(owners, tm)
    ensures var chosen := Chosen(owners, tm, votes);
            Obeys(owners, tm, votes, room, if chosen.Some? && room then [DispatchOf(chosen.value.msg)] else [])
  {
    if votes.Some? {
      WinnerIsFirstMaximum(votes.value, Summer1);
      WinnerIsFirstMaximum(votes.value, Summer2);
    }
    match CurrentWinner(votes)
    case None =>
    case Some(c) =>
      var i: nat :| FirstMaximum(votes.value, i) && Names(votes.value[i].name, c);
      assert Leads(votes, i, c);
  }

  /** What the loop reacts to: messages and answers to its question about the vote. */
  datatype Input = Got(m: QMsg) | Decided(votes: Option<seq<Vote>>)

  function React(owners: Owners, tm: TaskMap, x: Input): (r: TaskMap)
    requires WellOwned(owners, tm)
    ensures WellOwned(owners, r)
  {
    match x
    case Got(m) => Note(tm, m)
    case Decided(votes) => Credited(tm, Chosen(owners, tm, votes))
  }

  // The loop over all inputs

  /** The set-up in main: two tracked tasks without a message. */
  function SetUp(owners: Owners): TaskMap
    requires Summer1 in owners && Summer2 in owners
  {
    map[owners[Summer1] := None, owners[Summer2] := None]
  }

  function Feed(owners: Owners, tm: TaskMap, xs: seq<Input>): (r: TaskMap)
    requires WellOwned(owners, tm)
    ensures WellOwned(owners, r)
  {
    if xs == [] then tm else React(owners, Feed(owners, tm, xs[..|xs| - 1]), xs[|xs| - 1])
  }

  /** Where the latest message of a task is, or -1. */
  function LastAt(xs: seq<Input>, p: Pid): (k: int)
    ensures -1 <= k < |xs|
    ensures k >= 0 ==> xs[k].Got? && xs[k].m.pid == p
    ensures forall i :: k < i < |xs| && xs[i].Got? ==> xs[i].m.pid != p
  {
    if xs == [] then -1
    else if xs[|xs| - 1].Got? && xs[|xs| - 1].m.pid == p then |xs| - 1
    else LastAt(xs[..|xs| - 1], p)
  }

  predicate WinIn(x: Input, c: Competitor) {
    x.Decided? && CurrentWinner(x.votes) == Some(c)
  }

  function WinsIn(xs: seq<Input>, c: Competitor): nat {
    if xs == [] then 0
    else WinsIn(xs[..|xs| - 1], c) +
         if WinIn(xs[|xs| - 1], c) then 1 else 0
  }

  /** A second of virtual run time for each of n won decisions, added up in 64 bits. */
  function Credit(n: nat): U64 {
    if n == 0 then 0 else Wrap(Credit(n - 1) + WIN_NS)
  }

  lemma {:induction false} CreditIsProduct(n: nat)
    ensures Credit(n) == Wrap(1_000_000_000 * n)
  {
    if n > 0 {
      CreditIsProduct(n - 1);
      WrapOfSum(WIN_NS * (n - 1), WIN_NS);
    }
  }

  /** The decisions a competitor has won since the input at k. */
  function WinsAfter(xs: seq<Input>, k: nat, c: Competitor): nat
    requires k < |xs|
  {
    WinsIn(xs[k + 1..], c)
  }

  /** What is tracked for a competitor, told from the inputs alone: its latest message, and a second of
      virtual run time for each decision it has won since. */
  function FromHistory(xs: seq<Input>, p: Pid, c: Competitor): Option<Tracked> {
    var k := LastAt(xs, p);
    if k < 0 then None else Some(Tracked(Credit(WinsAfter(xs, k, c)), xs[k].m))
  }

  /** What one input makes of the entry of a competitor. */
  function Updated(entry: Option<Tracked>, x: Input, p: Pid, c: Competitor): Option<Tracked> {
    match x
    case Got(m) => if m.pid == p then Some(Tracked(0, m)) else entry
    case Decided(votes) =>
      if entry.Some? && WinIn(x, c)
      then Some(entry.value.(vruntime := Wrap(entry.value.vruntime + WIN_NS)))
      else entry
  }

  lemma ReactionUpdatesEntries(owners: Owners, tm: TaskMap, x: Input, c: Competitor)
    requires WellOwned(owners, tm)
    ensures owners[c] in React(owners, tm, x)
    ensures React(owners, tm, x)[owners[c]] == Updated(tm[owners[c]], x, owners[c], c)
  {
  }

  lemma LastAtGrows(xs: seq<Input>, x: Input, p: Pid)
    ensures LastAt(xs + [x], p) == if x.Got? && x.m.pid == p then |xs| else LastAt(xs, p)
  {
    assert (xs + [x])[..|xs|] == xs;
  }

  lemma WinsGrow(xs: seq<Input>, x: Input, k: nat, c: Competitor)
    requires k < |xs|
    ensures WinsAfter(xs + [x], k, c) == WinsAfter(xs, k, c) + if WinIn(x, c) then 1 else 0
    ensures WinsAfter(xs + [x], |xs|, c) == 0
  {
    assert (xs + [x])[k + 1..] == xs[k + 1..] + [x];
    assert (xs[k + 1..] + [x])[..|xs[k + 1..]|] == xs[k + 1..];
  }

  lemma HistoryGrows(xs: seq<Input>, x: Input, p: Pid, c: Competitor)
    ensures FromHistory(xs + [x], p, c) == Updated(FromHistory(xs, p, c), x, p, c)
  {
    LastAtGrows(xs, x, p);
    var k := LastAt(xs, p);
    if x.Got? && x.m.pid == p {
      assert (xs + [x])[|xs| + 1..] == [];
    } else if k >= 0 {
      WinsGrow(xs, x, k, c);
    }
  }

  /** For every sequence of messages and votes, from the set-up in main: the map keeps exactly the two
      tasks, and each entry is the one history calls for. */
  lemma {:induction false} TaskMapIsHistory(owners: Owners, xs: seq<Input>, c: Competitor)
    requires Summer1 in owners && Summer2 in owners && owners[Summer1] != owners[Summer2]
    ensures WellOwned(owners, SetUp(owners))
    ensures var tm := Feed(owners, SetUp(owners), xs);
            && tm.Keys == {owners[Summer1], owners[Summer2]}
            && owners[c] in tm && tm[owners[c]] == FromHistory(xs, owners[c], c)
  {
    if xs == [] {
    } else {
      var front, x := xs[..|xs| - 1], xs[|xs| - 1];
      TaskMapIsHistory(owners, front, c);
      ReactionUpdatesEntries(owners, Feed(owners, SetUp(owners), front), x, c);
      HistoryGrows(front, x, owners[c], c);
      assert xs == front + [x];
    }
  }

  /** What a decision dispatches after any inputs: the latest message of the winner, and nothing if there is
      no winner or it never sent one. */
  lemma {:induction false} WinnersLatestMessageIsChosen(owners: Owners, xs: seq<Input>, votes: Option<seq<Vote>>)
    requires Summer1 in owners && Summer2 in owners && owners[Summer1] != owners[Summer2]
    ensures WellOwned(owners, SetUp(owners))
    ensures var chosen := Chosen(owners, Feed(owners, SetUp(owners), xs), votes);
            match CurrentWinner(votes)
            case None => chosen == None
            case Some(c) =>
              var k := LastAt(xs, owners[c]);
              if k < 0 then chosen == None
              else chosen.Some? && Answers(DispatchOf(chosen.value.msg), xs[k].m)
                   && DispatchOf(chosen.value.msg).pid == if c.Summer1? then owners[Summer1] else owners[Summer2]
  {
    TaskMapIsHistory(owners, xs, Summer1);
    TaskMapIsHistory(owners, xs, Summer2);
  }

  // The program

  /** BpfScheduler: the two ring buffers and the counters shared with the backend. */
  class BpfScheduler {
    const capacity: nat
    var queued: seq<QMsg>
    var dispatched: seq<DMsg>
    var nrQueued: nat
    var nrScheduled: nat

    /** dequeue_task. */
    method DequeueTask() returns (r: Option<QMsg>)
      modifies this`queued
      ensures if old(queued) == [] then r == None && queued == []
              else r == Some(old(queued)[0]) && queued == old(queued)[1..]
    {
      if queued == [] {
        return None;
      }
      r := Some(queued[0]);
      queued := queued[1..];
    }

    /** dispatch_task fails when the ring is full. */
    method DispatchTask(m: DMsg) returns (ok: bool)
      modifies this`dispatched
      ensures ok == (|old(dispatched)| < capacity)
      ensures dispatched == old(dispatched) + if ok then [m] else []
    {
      ok := |dispatched| < capacity;
      if ok {
        dispatched := dispatched + [m];
      }
    }

    /** update_tasks. */
    method UpdateTasks(newQueued: Option<nat>, newScheduled: Option<nat>)
      modifies this`nrQueued, this`nrScheduled
      ensures nrQueued == if newQueued.Some? then newQueued.value else old(nrQueued)
      ensures nrScheduled == if newScheduled.Some? then newScheduled.value else old(nrScheduled)
    {
      if newQueued.Some? {
        nrQueued := newQueued.value;
      }
      if newScheduled.Some? {
        nrScheduled := newScheduled.value;
      }
    }
  }

  class Scheduler {
    const bpf: BpfScheduler
    var taskMap: TaskMap
    var ownerMap: Owners

    predicate Valid()
      reads this
    {
      WellOwned(ownerMap, taskMap)
    }

    /** Scheduler::init and the set-up in main, for the pids of the two processes it launches. */
    constructor (connector: BpfScheduler, pid1: Pid, pid2: Pid)
      requires pid1 != pid2
      ensures Valid() && bpf == connector && ownerMap == map[Summer1 := pid1, Summer2 := pid2]
      ensures taskMap == SetUp(ownerMap)
    {
      bpf := connector;
      taskMap, ownerMap := map[], map[];
      new;
      taskMap := taskMap[pid1 := None];
      taskMap := taskMap[pid2 := None];
      ownerMap := ownerMap[Summer1 := pid1];
      ownerMap := ownerMap[Summer2 := pid2];
    }

    /** The drain loop of schedule. */
    method DrainQueue()
      requires Valid()
      modifies this`taskMap, bpf`queued, bpf`nrQueued, bpf`nrScheduled
      ensures Valid() && taskMap == NoteAll(old(taskMap), old(bpf.queued))
      ensures bpf.queued == [] && bpf.nrQueued == 0 && bpf.nrScheduled == 0
    {
      while true
        invariant Valid()
        invariant NoteAll(taskMap, bpf.queued) == NoteAll(old(taskMap), old(bpf.queued))
        decreases |bpf.queued|
      {
        var r := bpf.DequeueTask();
        match r {
          case Some(task) =>
            if task.pid !in taskMap {
              continue;
            }
            taskMap := taskMap[task.pid := Some(Tracked(0, task))];
          case None =>
            bpf.UpdateTasks(Some(0), Some(0));
            break;
        }
      }
    }

    /** schedule: both look-ups succeed, at most one message is dispatched, and the winner is credited even
        if the ring had no room for it. */
    method Schedule(votes: Option<seq<Vote>>)
      requires Valid()
      modifies this`taskMap, bpf
      ensures Valid()
      ensures bpf.queued == [] && bpf.nrQueued == 0 && bpf.nrScheduled == 0
      ensures var tm := NoteAll(old(taskMap), old(bpf.queued));
              && WellOwned(ownerMap, tm)
              && var chosen := Chosen(ownerMap, tm, votes);
                 && taskMap == Credited(tm, chosen)
                 && bpf.dispatched == old(bpf.dispatched) +
                      if chosen.Some? && |old(bpf.dispatched)| < bpf.capacity
                      then [DispatchOf(chosen.value.msg)] else []
      ensures old(bpf.dispatched) <= bpf.dispatched
      ensures Obeys(ownerMap, NoteAll(old(taskMap), old(bpf.queued)), votes, |old(bpf.dispatched)| < bpf.capacity,
                    bpf.dispatched[|old(bpf.dispatched)|..])
    {
      DrainQueue();
      ChoiceObeysVote(ownerMap, taskMap, votes, |bpf.dispatched| < bpf.capacity);
      var winner := GetCurrentWinner(votes);
      if winner.None? {
        return;
      }
      var winnerPid := ownerMap[winner.value];
      if taskMap[winnerPid].None? {
        return;
      }
      var winnerTask := taskMap[winnerPid].value;
      var dispatchedTask := DMsg(winnerTask.msg.pid, winnerTask.msg.cpu, winnerTask.msg.cnt, false, false, 0,
                                 winnerTask.msg.exiting, winnerTask.msg.stamp);
      dispatchedTask := dispatchedTask.(slice := SLICE_NS);
      var ok := bpf.DispatchTask(dispatchedTask);
      winnerTask := winnerTask.(vruntime := Wrap(winnerTask.vruntime + WIN_NS));
      taskMap := taskMap[winnerPid := Some(winnerTask)];
    }
  }

  function Gots(q: seq<QMsg>): seq<Input> {
    seq(|q|, i requires 0 <= i < |q| => Got(q[i]))
  }

  lemma FeedMore(owners: Owners, tm: TaskMap, xs: seq<Input>, x: Input)
    requires WellOwned(owners, tm)
    ensures Feed(owners, tm, xs + [x]) == React(owners, Feed(owners, tm, xs), x)
  {
    assert (xs + [x])[..|xs|] == xs;
  }

  lemma LastOfConcat<T>(xs: seq<T>, front: seq<T>, ys: seq<T>, x: T)
    requires ys != [] && front == ys[..|ys| - 1] && x == ys[|ys| - 1]
    ensures ys == front + [x] && xs + ys == (xs + front) + [x]
  {
  }

  lemma {:induction false} FeedTwice(owners: Owners, tm: TaskMap, xs: seq<Input>, ys: seq<Input>)
    requires WellOwned(owners, tm)
    ensures Feed(owners, tm, xs + ys) == Feed(owners, Feed(owners, tm, xs), ys)
  {
    if ys == [] {
      assert xs + ys == xs;
    } else {
      var front, x := ys[..|ys| - 1], ys[|ys| - 1];
      FeedTwice(owners, tm, xs, front);
      FeedMore(owners, tm, xs + front, x);
      FeedMore(owners, Feed(owners, tm, xs), front, x);
      LastOfConcat(xs, front, ys, x);
    }
  }

  lemma FeedOne(owners: Owners, tm: TaskMap, x: Input)
    requires WellOwned(owners, tm)
    ensures Feed(owners, tm, [x]) == React(owners, tm, x)
  {
    assert [x][..0] == [];
  }

  lemma {:induction false} NotesAreInputs(owners: Owners, tm: TaskMap, q: seq<QMsg>)
    requires WellOwned(owners, tm)
    ensures NoteAll(tm, q) == Feed(owners, tm, Gots(q))
    decreases |q|
  {
    if q == [] {
    } else {
      NotesAreInputs(owners, Note(tm, q[0]), q[1..]);
      FeedTwice(owners, tm, [Got(q[0])], Gots(q[1..]));
      assert Gots(q) == [Got(q[0])] + Gots(q[1..]);
      FeedOne(owners, tm, Got(q[0]));
    }
  }

  /** One call of schedule is the reaction to the messages in the queue followed by the vote, so the results
      about all inputs hold of the program. */
  lemma ScheduleIsReaction(owners: Owners, tm: TaskMap, q: seq<QMsg>, votes: Option<seq<Vote>>)
    requires WellOwned(owners, tm)
    ensures WellOwned(owners, NoteAll(tm, q))
    ensures Credited(NoteAll(tm, q), Chosen(owners, NoteAll(tm, q), votes))
         == Feed(owners, tm, Gots(q) + [Decided(votes)])
  {
    NotesAreInputs(owners, tm, q);
    assert (Gots(q) + [Decided(votes)])[..|q|] == Gots(q);
  }
}
