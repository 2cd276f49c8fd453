/** The backend and the user-space loop together: any interleaving of kernel callbacks with the steps of
    the loop. What the loop does to the backend is legal there, so the results of module RustlandRuns
    hold of it, and more besides, because the loop sends nothing but winners' messages. */
module ClosedSystem {
  import opened Words
  import opened Rustland
  import opened RustlandProtocol
  import opened RustlandRuns
  import opened RustlandQueues
  import opened UserLoop

  /** `inputs` is what the loop has reacted to so far; it is `deciding` once it has found the ring empty and
      reset the counters. */
  datatype World = World(s: State, tm: TaskMap, inputs: seq<Input>, deciding: bool)

  datatype Act =
    | Kernel(e: Event)
    | Receive
    | SeeEmpty
    | ResetCounters
    | Decide(votes: Option<seq<Vote>>, full: bool)   // full: the ring of dispatches has no room

  predicate OfUser(e: Event) {
    e.UserReceive? || e.UserSeesEmpty? || e.UserReset? || e.UserSubmit?
  }

  /** main.rs asks for full_user and against fifo_sched, and launches two processes. */
  ghost predicate Premises(cfg: Config, owners: Owners) {
    && ValidConfig(cfg) && cfg.fullUser && !cfg.fifoSched
    && Summer1 in owners && Summer2 in owners && owners[Summer1] != owners[Summer2]
  }

  /** What an act does to the backend: at most one of its events. */
  function EventOf(owners: Owners, w: World, a: Act): Option<Event>
    requires WellOwned(owners, w.tm)
  {
    match a
    case Kernel(e) => Some(e)
    case Receive => Some(UserReceive)
    case SeeEmpty => Some(UserSeesEmpty)
    case ResetCounters => Some(UserReset)
    case Decide(votes, full) =>
      var chosen := Chosen(owners, w.tm, votes);
      if chosen.Some? && !full then Some(UserSubmit(DispatchOf(chosen.value.msg))) else None
  }

  ghost predicate CanAct(cfg: Config, w: World, a: Act)
    requires Shape(cfg, w.s)
  {
    match a
    case Kernel(e) => !OfUser(e) && CanStep(cfg, w.s, e)
    case Receive => !w.deciding && CanStep(cfg, w.s, UserReceive)
    case SeeEmpty => !w.deciding && CanStep(cfg, w.s, UserSeesEmpty)
    case ResetCounters => CanStep(cfg, w.s, UserReset)
    case Decide(_, _) => w.deciding
  }

  /** What the loop reacts to in an act. */
  function InputOf(w: World, a: Act): seq<Input>
    requires a.Receive? ==> w.s.queued != []
  {
    match a
    case Receive => [Got(w.s.queued[0])]
    case Decide(votes, _) => [Decided(votes)]
    case _ => []
  }

  predicate Tracks(tm: TaskMap, received: seq<QMsg>) {
    forall p :: p in tm && tm[p].Some? ==> tm[p].value.msg in received
  }

  /** What the loop tracks was received, and the loop decides only between a reset and the next receive. */
  ghost predicate LoopInv(owners: Owners, w: World) {
    && WellOwned(owners, w.tm)
    && Tracks(w.tm, w.s.received)
    && (w.deciding ==> !w.s.sawEmpty)
  }

  /** What a world must meet for its acts to make sense. */
  ghost predicate Meaningful(cfg: Config, owners: Owners, w: World) {
    Shape(cfg, w.s) && LoopInv(owners, w)
  }

  /** Whatever the loop does is a step the backend allows user space to make. */
  lemma ActsAreLegal(cfg: Config, owners: Owners, w: World, a: Act)
    requires Shape(cfg, w.s) && LoopInv(owners, w) && CanAct(cfg, w, a)
    ensures EventOf(owners, w, a).Some? ==> CanStep(cfg, w.s, EventOf(owners, w, a).value)
  {
    if a.Decide? && EventOf(owners, w, a).Some? {
      var q := Chosen(owners, w.tm, a.votes).value.msg;
      assert q in w.s.received && DerivedFrom(DispatchOf(q), q);
    }
  }

  function NextState(cfg: Config, owners: Owners, w: World, a: Act): State
    requires Shape(cfg, w.s) && LoopInv(owners, w) && CanAct(cfg, w, a)
  {
    ActsAreLegal(cfg, owners, w, a);
    match EventOf(owners, w, a)
    case None => w.s
    case Some(e) => Step(cfg, w.s, e)
  }

  ghost function Next(cfg: Config, owners: Owners, w: World, a: Act): World
    requires Shape(cfg, w.s) && LoopInv(owners, w) && CanAct(cfg, w, a)
  {
    World(NextState(cfg, owners, w, a),
          Feed(owners, w.tm, InputOf(w, a)),
          w.inputs + InputOf(w, a),
          a.ResetCounters? || (w.deciding && !a.Decide?))
  }

  // What travels between the two sides

  predicate Sensible(cfg: Config, cpu: int, exiting: bool) {
    if exiting then cpu == -1 else 0 <= cpu < cfg.nrCpus
  }

  /** Messages to user space name a CPU, or -1 in exit notices; those back are about the two competitors, carry no
      flags, and name the CPU of a message they answer. */
  ghost predicate Traffic(cfg: Config, owners: Owners, s: State)
    requires Summer1 in owners && Summer2 in owners
  {
    && (forall q :: q in s.queued ==> Sensible(cfg, q.cpu, q.exiting))
    && (forall q :: q in s.received ==> Sensible(cfg, q.cpu, q.exiting))
    && (forall m :: m in s.h.submitted ==> Plain(cfg, owners, m) && AnswersSome(s.received, m))
  }

  ghost predicate AnswersSome(received: seq<QMsg>, m: DMsg) {
    exists q :: q in received && Answers(m, q)
  }

  predicate Plain(cfg: Config, owners: Owners, m: DMsg)
    requires Summer1 in owners && Summer2 in owners
  {
    && m.pid in {owners[Summer1], owners[Summer2]}
    && !m.anyCpu && !m.preempt && m.slice == SLICE_NS && Sensible(cfg, m.cpu, m.exiting)
  }

  ghost predicate SameTraffic(s: State, t: State) {
    t.queued == s.queued && t.received == s.received && t.h.submitted == s.h.submitted
  }

  lemma TaskStepsKeepTraffic(cfg: Config, s: State, e: Event)
    requires Shape(cfg, s) && CanStep(cfg, s, e) && (e.Init? || e.Die? || e.SetCpumask?)
    ensures SameTraffic(s, Step(cfg, s, e))
  {
  }

  lemma DispatchKeepsTraffic(cfg: Config, s: State, cpu: nat)
    requires Shape(cfg, s) && cpu < cfg.nrCpus
    ensures SameTraffic(s, DispatchStep(cfg, s, cpu))
  {
    DrainKeepsQueues(FlagCleared(cfg, s), FirstBatch(cfg, s));
  }

  lemma SendKeepsTraffic(cfg: Config, owners: Owners, s: State, q: QMsg, full: bool)
    requires Summer1 in owners && Summer2 in owners && Traffic(cfg, owners, s) && Sensible(cfg, q.cpu, q.exiting)
    ensures Traffic(cfg, owners, Send(s, q, full))
  {
  }

  lemma KernelKeepsTraffic(cfg: Config, owners: Owners, s: State, e: Event)
    requires Shape(cfg, s) && CanStep(cfg, s, e) && !OfUser(e)
    requires Summer1 in owners && Summer2 in owners && Traffic(cfg, owners, s)
    ensures Traffic(cfg, owners, Step(cfg, s, e))
  {
    match e
    case Dispatch(cpu) => DispatchKeepsTraffic(cfg, s, cpu);
    case Enqueue(p, cpu, full) =>
      EnqueueSends(cfg, s, p, cpu, full);
      SendKeepsTraffic(cfg, owners, s, QMsg(p, cpu, s.tasks[p].cnt, false, |s.h.maskLog|), false);
    case Exit(p, full, garbage) =>
      SendKeepsTraffic(cfg, owners, s, QMsg(p, -1, garbage, true, |s.h.maskLog|), full);
    case Init(_, _, _) => TaskStepsKeepTraffic(cfg, s, e);
    case Die(_) => TaskStepsKeepTraffic(cfg, s, e);
    case SetCpumask(_, _) => TaskStepsKeepTraffic(cfg, s, e);
    case _ => QuietStepsKeepMessages(cfg, s, e);
  }

  lemma UserStepKeepsTraffic(cfg: Config, owners: Owners, s: State, e: Event)
    requires Shape(cfg, s) && CanStep(cfg, s, e) && OfUser(e)
    requires Summer1 in owners && Summer2 in owners && Traffic(cfg, owners, s)
    requires e.UserSubmit? ==> Plain(cfg, owners, e.m) && AnswersSome(s.received, e.m)
    ensures Traffic(cfg, owners, Step(cfg, s, e))
  {
    var t := Step(cfg, s, e);
    if e.UserReceive? {
      assert s.queued[0] in s.queued;
      forall m | m in t.h.submitted ensures AnswersSome(t.received, m) {
        var q :| q in s.received && Answers(m, q);
        assert q in t.received;
      }
    }
  }

  /** What the loop sends is plain, because what it tracks was received. */
  lemma LoopSendsPlain(cfg: Config, owners: Owners, w: World, a: Act)
    requires LoopInv(owners, w) && Traffic(cfg, owners, w.s) && a.Decide?
    requires EventOf(owners, w, a).Some?
    ensures EventOf(owners, w, a).value.UserSubmit? && Plain(cfg, owners, EventOf(owners, w, a).value.m)
    ensures AnswersSome(w.s.received, EventOf(owners, w, a).value.m)
  {
    var q := Chosen(owners, w.tm, a.votes).value.msg;
    assert q in w.s.received && Answers(DispatchOf(q), q);
  }

  lemma LoopKeepsTraffic(cfg: Config, owners: Owners, w: World, a: Act)
    requires Shape(cfg, w.s) && LoopInv(owners, w) && CanAct(cfg, w, a) && !a.Kernel?
    requires Traffic(cfg, owners, w.s)
    ensures Traffic(cfg, owners, NextState(cfg, owners, w, a))
  {
    ActsAreLegal(cfg, owners, w, a);
    if EventOf(owners, w, a).Some? {
      if a.Decide? {
        LoopSendsPlain(cfg, owners, w, a);
      }
      UserStepKeepsTraffic(cfg, owners, w.s, EventOf(owners, w, a).value);
    }
  }

  // The invariant of the closed system

  ghost predicate WorldInv(cfg: Config, owners: Owners, w: World) {
    && Premises(cfg, owners) && Inv(cfg, w.s) && LoopInv(owners, w) && Traffic(cfg, owners, w.s)
    && WellOwned(owners, SetUp(owners)) && w.tm == Feed(owners, SetUp(owners), w.inputs)
  }

  /** Scheduler::init and main, next to a backend that has just started. */
  ghost predicate Start(cfg: Config, owners: Owners, w: World)
    ensures Start(cfg, owners, w) ==> Meaningful(cfg, owners, w)
  {
    && Premises(cfg, owners) && Initial(cfg, w.s)
    && w.tm == SetUp(owners) && w.inputs == [] && !w.deciding
  }

  lemma StartInv(cfg: Config, owners: Owners, w: World)
    requires Start(cfg, owners, w)
    ensures WorldInv(cfg, owners, w)
  {
    InitialInv(cfg, w.s);
  }

  lemma KernelKeepsReceived(cfg: Config, s: State, e: Event)
    requires Shape(cfg, s) && CanStep(cfg, s, e) && !OfUser(e)
    ensures Step(cfg, s, e).received == s.received && Step(cfg, s, e).sawEmpty == s.sawEmpty
  {
    StepMovesRing(cfg, s, e);
    if e.Dispatch? {
      DispatchKeepsTraffic(cfg, s, e.cpu);
    } else if e.Enqueue? {
      assert Step(cfg, s, e) == EnqueueStep(cfg, s, e.p, e.cpu, e.full);
    }
  }

  lemma ReactionTracksReceived(owners: Owners, tm: TaskMap, x: Input, received: seq<QMsg>)
    requires WellOwned(owners, tm) && (x.Got? ==> x.m in received)
    requires Tracks(tm, received)
    ensures Tracks(Feed(owners, tm, [x]), received)
  {
    FeedOne(owners, tm, x);
  }

  /** What an act does to the messages received and to the place of the loop. */
  ghost predicate LoopMoves(w: World, a: Act, v: World)
    requires a.Receive? ==> w.s.queued != []
  {
    && v.s.received == (if a.Receive? then w.s.received + [w.s.queued[0]] else w.s.received)
    && (v.deciding ==> !v.s.sawEmpty)
  }

  lemma UserStepMoves(cfg: Config, s: State, e: Event)
    requires Shape(cfg, s) && CanStep(cfg, s, e) && OfUser(e)
    ensures Step(cfg, s, e).received == if e.UserReceive? then s.received + [s.queued[0]] else s.received
    ensures Step(cfg, s, e).sawEmpty == (e.UserSeesEmpty? || (s.sawEmpty && !e.UserReset?))
  {
  }

  lemma ActMovesLoop(cfg: Config, owners: Owners, w: World, a: Act)
    requires Shape(cfg, w.s) && LoopInv(owners, w) && CanAct(cfg, w, a)
    ensures LoopMoves(w, a, Next(cfg, owners, w, a))
  {
    ActsAreLegal(cfg, owners, w, a);
    if a.Kernel? {
      KernelKeepsReceived(cfg, w.s, a.e);
    } else if EventOf(owners, w, a).Some? {
      UserStepMoves(cfg, w.s, EventOf(owners, w, a).value);
    }
  }

  lemma ActKeepsLoopInv(cfg: Config, owners: Owners, w: World, a: Act)
    requires Shape(cfg, w.s) && LoopInv(owners, w) && CanAct(cfg, w, a)
    ensures LoopInv(owners, Next(cfg, owners, w, a))
  {
    ActMovesLoop(cfg, owners, w, a);
    var received := Next(cfg, owners, w, a).s.received;
    assert Tracks(w.tm, received);
    if InputOf(w, a) != [] {
      var x := InputOf(w, a)[0];
      assert InputOf(w, a) == [x];
      ReactionTracksReceived(owners, w.tm, x, received);
    }
  }

  /** Every act keeps the invariant. */
  lemma ActKeeps(cfg: Config, owners: Owners, w: World, a: Act)
    requires WorldInv(cfg, owners, w) && CanAct(cfg, w, a)
    ensures WorldInv(cfg, owners, Next(cfg, owners, w, a))
  {
    ActsAreLegal(cfg, owners, w, a);
    if EventOf(owners, w, a).Some? {
      StepKeeps(cfg, w.s, EventOf(owners, w, a).value);
    }
    ActKeepsLoopInv(cfg, owners, w, a);
    if a.Kernel? {
      KernelKeepsTraffic(cfg, owners, w.s, a.e);
    } else {
      LoopKeepsTraffic(cfg, owners, w, a);
    }
    FeedTwice(owners, SetUp(owners), w.inputs, InputOf(w, a));
  }

  // Runs

  lemma ActKeepsMeaning(cfg: Config, owners: Owners, w: World, a: Act)
    requires Meaningful(cfg, owners, w) && CanAct(cfg, w, a)
    ensures Meaningful(cfg, owners, Next(cfg, owners, w, a))
  {
    ActsAreLegal(cfg, owners, w, a);
    if EventOf(owners, w, a).Some? {
      StepKeepsShape(cfg, w.s, EventOf(owners, w, a).value);
    }
    ActKeepsLoopInv(cfg, owners, w, a);
  }

  ghost predicate IsWorldRun(cfg: Config, owners: Owners, w: World, acts: seq<Act>)
    requires Meaningful(cfg, owners, w)
    decreases |acts|, 0
  {
    acts == [] || (
      && IsWorldRun(cfg, owners, w, acts[..|acts| - 1])
      && CanAct(cfg, AfterActs(cfg, owners, w, acts[..|acts| - 1]), acts[|acts| - 1]))
  }

  ghost function AfterActs(cfg: Config, owners: Owners, w: World, acts: seq<Act>): (r: World)
    requires Meaningful(cfg, owners, w) && IsWorldRun(cfg, owners, w, acts)
    ensures Meaningful(cfg, owners, r)
    decreases |acts|, 1
  {
    if acts == [] then w
    else
      var v := AfterActs(cfg, owners, w, acts[..|acts| - 1]);
      ActKeepsMeaning(cfg, owners, v, acts[|acts| - 1]);
      Next(cfg, owners, v, acts[|acts| - 1])
  }

  lemma {:induction false} WorldInvHolds(cfg: Config, owners: Owners, w: World, acts: seq<Act>)
    requires WorldInv(cfg, owners, w) && IsWorldRun(cfg, owners, w, acts)
    ensures WorldInv(cfg, owners, AfterActs(cfg, owners, w, acts))
  {
    if acts == [] {
    } else {
      WorldInvHolds(cfg, owners, w, acts[..|acts| - 1]);
      ActKeeps(cfg, owners, AfterActs(cfg, owners, w, acts[..|acts| - 1]), acts[|acts| - 1]);
    }
  }

  /** The backend's side of a run. */
  ghost function EventsOf(cfg: Config, owners: Owners, w: World, acts: seq<Act>): seq<Event>
    requires Meaningful(cfg, owners, w) && IsWorldRun(cfg, owners, w, acts)
  {
    if acts == [] then []
    else
      var front := acts[..|acts| - 1];
      var e := EventOf(owners, AfterActs(cfg, owners, w, front), acts[|acts| - 1]);
      EventsOf(cfg, owners, w, front) + if e.Some? then [e.value] else []
  }

  /** Every run of the closed system, with any interleaving, is a run of the backend on its own: the loop
      meets what the protocol asks of user space. So every result about runs of the backend holds here. */
  lemma {:induction false} LoopMeetsTheProtocol(cfg: Config, owners: Owners, w: World, acts: seq<Act>)
    requires Meaningful(cfg, owners, w) && IsWorldRun(cfg, owners, w, acts)
    ensures IsRun(cfg, w.s, EventsOf(cfg, owners, w, acts))
    ensures After(cfg, w.s, EventsOf(cfg, owners, w, acts)) == AfterActs(cfg, owners, w, acts).s
  {
    if acts == [] {
    } else {
      var front, a := acts[..|acts| - 1], acts[|acts| - 1];
      LoopMeetsTheProtocol(cfg, owners, w, front);
      var v := AfterActs(cfg, owners, w, front);
      ActsAreLegal(cfg, owners, v, a);
      if EventOf(owners, v, a).Some? {
        OneMoreEvent(cfg, w.s, EventsOf(cfg, owners, w, front), EventOf(owners, v, a).value);
      } else {
        assert EventsOf(cfg, owners, w, acts) == EventsOf(cfg, owners, w, front);
      }
    }
  }

  /** What a handled message must have come to. */
  ghost predicate FullVerdict(log: seq<Pid>, r: Handled) {
    if !r.live then r.outcome == Gone else if r.msg.exiting then r.outcome == Invalid else ExactVerdict(log, r)
  }

  /** In every run of the closed system each handled message is about a competitor, and its fate is settled: if
      its task is gone, nothing; if it answers an exit notice of a task that still exists, the error that
      takes the scheduler down; otherwise it reaches the CPU the task was last seen on, or is
      cancelled or bounced, exactly as staleness and the mask demand. */
  lemma EveryDispatchIsSettled(cfg: Config, owners: Owners, w: World, acts: seq<Act>, r: Handled)
    requires Start(cfg, owners, w) && IsWorldRun(cfg, owners, w, acts)
    requires r in AfterActs(cfg, owners, w, acts).s.h.handled && |AfterActs(cfg, owners, w, acts).s.h.maskLog| < TWO64
    ensures r.msg.pid in {owners[Summer1], owners[Summer2]} && !r.msg.preempt
    ensures FullVerdict(AfterActs(cfg, owners, w, acts).s.h.maskLog, r)
  {
    StartInv(cfg, owners, w);
    WorldInvHolds(cfg, owners, w, acts);
    var s := AfterActs(cfg, owners, w, acts).s;
    var i :| 0 <= i < |s.h.handled| && s.h.handled[i] == r;
    assert s.h.submitted[i] == r.msg;
    assert Plain(cfg, owners, r.msg);
    assert RightVerdict(s.h.maskLog, r);
    if r.live && !r.msg.exiting {
      VerdictInShortHistory(s.h.maskLog, r);
    }
  }

  /** The loop does not tell exit notices from other messages: if the winner's latest message is one, and the
      task can still be looked up when the answer is drained, the invalid CPU -1 raises the error. */
  lemma ExitNoticeTakesSchedulerDown(cfg: Config, owners: Owners, w: World, votes: Option<seq<Vote>>, cpu: nat)
    requires Shape(cfg, w.s) && LoopInv(owners, w) && Traffic(cfg, owners, w.s)
    requires w.deciding && cpu < cfg.nrCpus && w.s.dispatched == []
    requires var chosen := Chosen(owners, w.tm, votes);
             chosen.Some? && chosen.value.msg.exiting && chosen.value.msg.pid in w.s.tasks
    ensures DispatchStep(cfg, Next(cfg, owners, w, Decide(votes, false)).s, cpu).aborted
  {
    var q := Chosen(owners, w.tm, votes).value.msg;
    assert q in w.s.received && Sensible(cfg, q.cpu, q.exiting);
    ActsAreLegal(cfg, owners, w, Decide(votes, false));
    var s := Next(cfg, owners, w, Decide(votes, false)).s;
    assert s.dispatched == [DispatchOf(q)] && OutcomeOf(s.tasks, DispatchOf(q)) == Invalid;
    var s0 := FlagCleared(cfg, s);
    AbortIsLasting(HandleFirst(s0), FirstBatch(cfg, s) + SlotsOf(s0.dispatched[0], Invalid));
  }

  lemma {:induction false} AbortIsLasting(s: State, batch: seq<Slot>)
    requires s.aborted
    ensures Drain(s, batch).0.aborted
    decreases |s.dispatched|
  {
    if s.dispatched != [] {
      AbortIsLasting(HandleFirst(s), batch + SlotsOf(s.dispatched[0], OutcomeOf(s.tasks, s.dispatched[0])));
    }
  }

  predicate AnswersExitNotice(r: Handled) {
    r.msg.exiting && r.live
  }

  lemma InvalidMeansExitNotice(cfg: Config, owners: Owners, w: World, r: Handled)
    requires WorldInv(cfg, owners, w) && r in w.s.h.handled
    ensures r.outcome == Invalid <==> AnswersExitNotice(r)
  {
    var i :| 0 <= i < |w.s.h.handled| && w.s.h.handled[i] == r;
    assert w.s.h.submitted[i] == r.msg;
    assert Plain(cfg, owners, r.msg) && RightVerdict(w.s.h.maskLog, r);
  }

  /** In every run of the closed system the scheduler is taken down exactly if an answer to an exit notice was
      handled while its task could still be looked up, or a dispatch found the scheduler needed, and gone. */
  lemma SchedulerGoesDownIff(cfg: Config, owners: Owners, w: World, acts: seq<Act>)
    requires Start(cfg, owners, w) && IsWorldRun(cfg, owners, w, acts)
    ensures IsRun(cfg, w.s, EventsOf(cfg, owners, w, acts))
    ensures var s := AfterActs(cfg, owners, w, acts).s;
            s.aborted <==> MissedScheduler(cfg, w.s, EventsOf(cfg, owners, w, acts))
                           || exists r :: r in s.h.handled && AnswersExitNotice(r)
  {
    LoopMeetsTheProtocol(cfg, owners, w, acts);
    AbortedIff(cfg, w.s, EventsOf(cfg, owners, w, acts));
    StartInv(cfg, owners, w);
    WorldInvHolds(cfg, owners, w, acts);
    var v := AfterActs(cfg, owners, w, acts);
    forall r | r in v.s.h.handled ensures r.outcome == Invalid <==> AnswersExitNotice(r) {
      InvalidMeansExitNotice(cfg, owners, v, r);
    }
  }

  lemma OneMoreAct(cfg: Config, owners: Owners, w: World, acts: seq<Act>, a: Act)
    requires Meaningful(cfg, owners, w) && IsWorldRun(cfg, owners, w, acts)
    requires CanAct(cfg, AfterActs(cfg, owners, w, acts), a)
    ensures IsWorldRun(cfg, owners, w, acts + [a])
    ensures AfterActs(cfg, owners, w, acts + [a]) == Next(cfg, owners, AfterActs(cfg, owners, w, acts), a)
  {
    assert (acts + [a])[..|acts|] == acts;
  }

  // One call of schedule is one way to make these steps

  /** All messages of the ring have been received and noted. */
  ghost predicate Drained(w: World, v: World) {
    && v.s == w.s.(queued := [], received := w.s.received + w.s.queued)
    && v.tm == NoteAll(w.tm, w.s.queued) && v.deciding == w.deciding
  }

  lemma ReceivingNotes(cfg: Config, owners: Owners, w: World)
    requires Meaningful(cfg, owners, w) && CanAct(cfg, w, Receive)
    ensures var v := Next(cfg, owners, w, Receive);
            && v.s == w.s.(queued := w.s.queued[1..], received := w.s.received + [w.s.queued[0]])
            && v.tm == Note(w.tm, w.s.queued[0]) && v.deciding == w.deciding
  {
    FeedOne(owners, w.tm, Got(w.s.queued[0]));
  }

  lemma DrainedOneByOne(w: World, v: World, u: World)
    requires w.s.queued != [] && v.tm == Note(w.tm, w.s.queued[0]) && v.deciding == w.deciding
    requires v.s == w.s.(queued := w.s.queued[1..], received := w.s.received + [w.s.queued[0]])
    requires Drained(v, u)
    ensures Drained(w, u)
  {
    assert w.s.queued == [w.s.queued[0]] + w.s.queued[1..];
    AppendAssociates(w.s.received, [w.s.queued[0]], w.s.queued[1..]);
  }

  lemma {:induction false} ReceivesDrain(cfg: Config, owners: Owners, w: World, acts: seq<Act>) returns (r: seq<Act>)
    requires Meaningful(cfg, owners, w) && IsWorldRun(cfg, owners, w, acts)
    requires !AfterActs(cfg, owners, w, acts).deciding && !AfterActs(cfg, owners, w, acts).s.sawEmpty
    ensures IsWorldRun(cfg, owners, w, r)
    ensures Drained(AfterActs(cfg, owners, w, acts), AfterActs(cfg, owners, w, r))
    decreases |AfterActs(cfg, owners, w, acts).s.queued|
  {
    var v := AfterActs(cfg, owners, w, acts);
    if v.s.queued == [] {
      r := acts;
      assert v.s.received + [] == v.s.received;
    } else {
      OneMoreAct(cfg, owners, w, acts, Receive);
      ReceivingNotes(cfg, owners, v);
      r := ReceivesDrain(cfg, owners, w, acts + [Receive]);
      DrainedOneByOne(v, AfterActs(cfg, owners, w, acts + [Receive]), AfterActs(cfg, owners, w, r));
    }
  }

  /** What a call of schedule comes to: as the method of the program says, with both counters reset. */
  ghost predicate Scheduled(owners: Owners, w: World, v: World, votes: Option<seq<Vote>>, full: bool)
    requires WellOwned(owners, w.tm) && WellOwned(owners, NoteAll(w.tm, w.s.queued))
  {
    var tm := NoteAll(w.tm, w.s.queued);
    var chosen := Chosen(owners, tm, votes);
    && v.s.queued == [] && v.s.n.nrQueued == 0 && v.s.n.nrScheduled == 0
    && v.tm == Credited(tm, chosen)
    && v.s.dispatched == w.s.dispatched + if chosen.Some? && !full then [DispatchOf(chosen.value.msg)] else []
  }

  lemma DecidingSchedules(cfg: Config, owners: Owners, w: World, v: World, votes: Option<seq<Vote>>, full: bool)
    requires WellOwned(owners, w.tm) && WellOwned(owners, NoteAll(w.tm, w.s.queued))
    requires Meaningful(cfg, owners, v) && CanAct(cfg, v, Decide(votes, full))
    requires v.s.queued == [] && v.s.n.nrQueued == 0 && v.s.n.nrScheduled == 0
    requires v.tm == NoteAll(w.tm, w.s.queued) && v.s.dispatched == w.s.dispatched
    ensures Scheduled(owners, w, Next(cfg, owners, v, Decide(votes, full)), votes, full)
  {
    FeedOne(owners, v.tm, Decided(votes));
    assert w.s.dispatched + [] == w.s.dispatched;
    ActsAreLegal(cfg, owners, v, Decide(votes, full));
  }

  lemma ResettingCounts(cfg: Config, owners: Owners, w: World)
    requires Meaningful(cfg, owners, w) && w.s.queued == [] && !w.s.sawEmpty && !w.deciding
    ensures CanAct(cfg, w, SeeEmpty) && Meaningful(cfg, owners, Next(cfg, owners, w, SeeEmpty))
    ensures CanAct(cfg, Next(cfg, owners, w, SeeEmpty), ResetCounters)
    ensures var v := Next(cfg, owners, Next(cfg, owners, w, SeeEmpty), ResetCounters);
            && v.s == w.s.(n := w.s.n.(nrQueued := 0, nrScheduled := 0)) && v.tm == w.tm && v.deciding
  {
    ActKeepsMeaning(cfg, owners, w, SeeEmpty);
  }

  /** With nothing in between, the steps of the loop come to what one call of schedule does. */
  lemma ScheduleIsActs(cfg: Config, owners: Owners, w: World, votes: Option<seq<Vote>>, full: bool)
      returns (acts: seq<Act>)
    requires Meaningful(cfg, owners, w) && !w.deciding && !w.s.sawEmpty
    ensures WellOwned(owners, NoteAll(w.tm, w.s.queued))
    ensures IsWorldRun(cfg, owners, w, acts)
    ensures Scheduled(owners, w, AfterActs(cfg, owners, w, acts), votes, full)
  {
    NotesAreInputs(owners, w.tm, w.s.queued);
    acts := ReceivesDrain(cfg, owners, w, []);
    ResettingCounts(cfg, owners, AfterActs(cfg, owners, w, acts));
    OneMoreAct(cfg, owners, w, acts, SeeEmpty);
    acts := acts + [SeeEmpty];
    OneMoreAct(cfg, owners, w, acts, ResetCounters);
    acts := acts + [ResetCounters];
    DecidingSchedules(cfg, owners, w, AfterActs(cfg, owners, w, acts), votes, full);
    OneMoreAct(cfg, owners, w, acts, Decide(votes, full));
    acts := acts + [Decide(votes, full)];
  }

  lemma OneVoteWins()
    ensures CurrentWinner(Some([Vote("summer1", 1)])) == Some(Summer1)
  {
    var votes := [Vote("summer1", 1)];
    assert FirstMaximum(votes, 0) && Names(votes[0].name, Summer1);
    WinnerIsFirstMaximum(votes, Summer1);
  }

  /** A world in which little more has happened than that competitor 1 was created: what is on the ring, what
      is tracked of it, and where the loop is. */
  ghost predicate Scene(cfg: Config, owners: Owners, w: World, ring: seq<QMsg>, entry: Option<Tracked>,
                        sawEmpty: bool, deciding: bool)
    requires Premises(cfg, owners)
  {
    && Meaningful(cfg, owners, w) && owners[Summer1] in w.s.tasks
    && w.s.queued == ring && w.s.dispatched == [] && w.s.sawEmpty == sawEmpty && w.deciding == deciding
    && w.tm == SetUp(owners)[owners[Summer1] := entry]
  }

  /** The exit notice of competitor 1, before any change of a cpumask. */
  function Notice(owners: Owners): QMsg
    requires Summer1 in owners
  {
    QMsg(owners[Summer1], -1, 0, true, 0)
  }

  lemma CompetitorIsCreated(cfg: Config, owners: Owners, w: World) returns (a: Act)
    requires Start(cfg, owners, w) && owners[Summer1] > 0
    ensures CanAct(cfg, w, a) && Scene(cfg, owners, Next(cfg, owners, w, a), [], None, false, false)
    ensures Next(cfg, owners, w, a).s.h.maskLog == []
  {
    a := Kernel(Init(owners[Summer1], {0}, false));
    ActKeepsMeaning(cfg, owners, w, a);
  }

  /** The exit callback comes while the kernel still finds the task by its pid. This is a premise about the
      kernel: where the pid is gone by then, the answer to the notice is ignored. */
  lemma CompetitorExits(cfg: Config, owners: Owners, w: World) returns (a: Act)
    requires Premises(cfg, owners) && Scene(cfg, owners, w, [], None, false, false) && w.s.h.maskLog == []
    ensures CanAct(cfg, w, a) && Scene(cfg, owners, Next(cfg, owners, w, a), [Notice(owners)], None, false, false)
  {
    a := Kernel(Exit(owners[Summer1], false, 0));
    ActKeepsMeaning(cfg, owners, w, a);
  }

  lemma NoticeIsReceived(cfg: Config, owners: Owners, w: World)
    requires Premises(cfg, owners) && Scene(cfg, owners, w, [Notice(owners)], None, false, false)
    ensures CanAct(cfg, w, Receive)
    ensures Scene(cfg, owners, Next(cfg, owners, w, Receive), [], Some(Tracked(0, Notice(owners))), false, false)
  {
    ActKeepsMeaning(cfg, owners, w, Receive);
    FeedOne(owners, w.tm, Got(Notice(owners)));
  }

  lemma RingIsFoundEmpty(cfg: Config, owners: Owners, w: World, entry: Option<Tracked>)
    requires Premises(cfg, owners) && Scene(cfg, owners, w, [], entry, false, false)
    ensures CanAct(cfg, w, SeeEmpty) && Scene(cfg, owners, Next(cfg, owners, w, SeeEmpty), [], entry, true, false)
  {
    ActKeepsMeaning(cfg, owners, w, SeeEmpty);
  }

  lemma CountersAreReset(cfg: Config, owners: Owners, w: World, entry: Option<Tracked>)
    requires Premises(cfg, owners) && Scene(cfg, owners, w, [], entry, true, false)
    ensures CanAct(cfg, w, ResetCounters)
    ensures Scene(cfg, owners, Next(cfg, owners, w, ResetCounters), [], entry, false, true)
  {
    ActKeepsMeaning(cfg, owners, w, ResetCounters);
  }

  /** Up to its decision. */
  lemma NoticeIsTracked(cfg: Config, owners: Owners, w: World) returns (acts: seq<Act>)
    requires Start(cfg, owners, w) && owners[Summer1] > 0
    ensures IsWorldRun(cfg, owners, w, acts)
    ensures Scene(cfg, owners, AfterActs(cfg, owners, w, acts), [], Some(Tracked(0, Notice(owners))), false, true)
  {
    var a := CompetitorIsCreated(cfg, owners, w);
    acts := [];
    OneMoreAct(cfg, owners, w, acts, a);
    acts := acts + [a];
    a := CompetitorExits(cfg, owners, AfterActs(cfg, owners, w, acts));
    OneMoreAct(cfg, owners, w, acts, a);
    acts := acts + [a];
    NoticeIsReceived(cfg, owners, AfterActs(cfg, owners, w, acts));
    OneMoreAct(cfg, owners, w, acts, Receive);
    acts := acts + [Receive];
    RingIsFoundEmpty(cfg, owners, AfterActs(cfg, owners, w, acts), Some(Tracked(0, Notice(owners))));
    OneMoreAct(cfg, owners, w, acts, SeeEmpty);
    acts := acts + [SeeEmpty];
    CountersAreReset(cfg, owners, AfterActs(cfg, owners, w, acts), Some(Tracked(0, Notice(owners))));
    OneMoreAct(cfg, owners, w, acts, ResetCounters);
    acts := acts + [ResetCounters];
  }

  lemma NoticeIsAnswered(cfg: Config, owners: Owners, w: World, d: Act)
    requires WorldInv(cfg, owners, w) && Scene(cfg, owners, w, [], Some(Tracked(0, Notice(owners))), false, true)
    requires d == Decide(Some([Vote("summer1", 1)]), false)
    ensures CanAct(cfg, w, d) && Meaningful(cfg, owners, Next(cfg, owners, w, d))
    ensures CanAct(cfg, Next(cfg, owners, w, d), Kernel(Dispatch(0)))
    ensures Next(cfg, owners, Next(cfg, owners, w, d), Kernel(Dispatch(0))).s.aborted
  {
    OneVoteWins();
    ActKeepsMeaning(cfg, owners, w, d);
    ExitNoticeTakesSchedulerDown(cfg, owners, w, d.votes, 0);
  }

  /** Such a run exists: competitor 1 is created and exits, its notice is received, and it wins the vote,
      with its pid known to the kernel up to the end. */
  lemma ExitOfWinnerIsFatal(cfg: Config, owners: Owners, w: World) returns (acts: seq<Act>)
    requires Start(cfg, owners, w) && owners[Summer1] > 0
    ensures IsWorldRun(cfg, owners, w, acts) && AfterActs(cfg, owners, w, acts).s.aborted
  {
    acts := NoticeIsTracked(cfg, owners, w);
    StartInv(cfg, owners, w);
    WorldInvHolds(cfg, owners, w, acts);
    var d := Decide(Some([Vote("summer1", 1)]), false);
    NoticeIsAnswered(cfg, owners, AfterActs(cfg, owners, w, acts), d);
    OneMoreAct(cfg, owners, w, acts, d);
    acts := acts + [d];
    OneMoreAct(cfg, owners, w, acts, Kernel(Dispatch(0)));
    acts := acts + [Kernel(Dispatch(0))];
  }

  // Who waits in the queues

  /** The user-space scheduler and the two competitors. */
  function ServedPids(cfg: Config, owners: Owners): set<Pid>
    requires Summer1 in owners && Summer2 in owners
  {
    {cfg.userPid, owners[Summer1], owners[Summer2]}
  }

  lemma SourcesAreServed(cfg: Config, owners: Owners, w: World, x: Slot)
    requires WorldInv(cfg, owners, w) && w.s.n.nrCongested == 0 && x in Sources(cfg, w.s)
    ensures x.pid in ServedPids(cfg, owners)
  {
    if x in SlotsOfAll(w.s.h.handled) {
      var r := SlotComesFrom(w.s.h.handled, x);
      var i :| 0 <= i < |w.s.h.handled| && w.s.h.handled[i] == r;
      assert w.s.h.submitted[i] == r.msg;
      assert Plain(cfg, owners, r.msg);
    }
  }

  /** In every run of the closed system in which the ring to user space never overflows, the queues hold
      nobody but the user-space scheduler and the two competitors: no other task that is sent to user space ever
      gets back into one. */
  lemma OnlyCompetitorsAreQueued(cfg: Config, owners: Owners, w: World, acts: seq<Act>, d: nat, x: Slot)
    requires Start(cfg, owners, w) && IsWorldRun(cfg, owners, w, acts)
    requires AfterActs(cfg, owners, w, acts).s.n.nrCongested == 0
    requires d < DSQ_COUNT && x in AfterActs(cfg, owners, w, acts).s.dsqs[d]
    ensures x.pid in ServedPids(cfg, owners)
  {
    LoopMeetsTheProtocol(cfg, owners, w, acts);
    QueuesAreSourced(cfg, w.s, EventsOf(cfg, owners, w, acts));
    StartInv(cfg, owners, w);
    WorldInvHolds(cfg, owners, w, acts);
    var v := AfterActs(cfg, owners, w, acts);
    assert OneFrom(v.s.dsqs[d], d, Sources(cfg, v.s));
    SourcesAreServed(cfg, owners, v, x);
  }
}
