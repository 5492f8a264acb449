/** The waits on mStateCv and mSleepCv. In `WorkerProtocol` a wait is a guard that opens when its condition holds;
  * here the threads really sleep, and only the broadcasts of the code, a timeout or a spurious wake-up end that. */
module WorkerWakeups {
  import opened WorkerState
  import opened WorkerProtocol
  import opened WorkerTheorems
  import opened WorkerWaits

  datatype Cv = StateCv | SleepCv

  /** The four waits of the code. */
  datatype Wait =
    | Ready                    // start: for mThreadReady
    | Callbacks                // joinLocked: for mCallbacksInProgress == 0
    | Released(t: ThreadId)    // taskEntry: for mStartReleased
    | Nap(t: ThreadId)         // msleep

  function CvOf(w: Wait): Cv {
    if w.Nap? then SleepCv else StateCv
  }

  /** The thread stands at the wait. */
  predicate StandsAt(s: Sys, w: Wait) {
    match w
    case Ready => LifeAt(s, AwaitReady)
    case Callbacks => LifeAt(s, JoinAwait)
    case Released(t) => t in s.threads && s.threads[t] == AwaitRelease
    case Nap(t) => t in s.threads && s.threads[t] == Asleep
  }

  /** What the wait is for. */
  predicate Satisfied(d: Shared, w: Wait) {
    match w
    case Ready => d.threadReady
    case Callbacks => d.callbacks == 0
    case Released(_) => d.startReleased
    case Nap(_) => SleepOver(d)
  }

  const BOTH := {StateCv, SleepCv}

  /** requestStop broadcasts both, unless it returns at once. */
  function RequestBroadcasts(d: Shared): set<Cv> {
    if d.state == Idle || d.state == Exited then {} else BOTH
  }

  /** start, stop and join. */
  function LifeBroadcasts(d: Shared, pc: LifePc): set<Cv> {
    match pc
    case Fail(_) => BOTH
    case AwaitReady => if d.stopRequested then BOTH else {StateCv}
    case RequestStop => RequestBroadcasts(d)
    case Callback(at) => if at.Over? then {StateCv} else {}
    case JoinReset => BOTH
    case _ => {}
  }

  /** What a step broadcasts, within its critical section. */
  function Broadcasts(s: Sys, a: Act): set<Cv>
    requires Enabled(s, a)
  {
    match a
    case Call(_, _) => {}
    case StartFromRun(_, _) => {}
    case LifeStep(_, _) => LifeBroadcasts(s.d, s.life.pc)
    case RequestBy(_) => RequestBroadcasts(s.d)
    case RequesterStep(who) => if s.requesters[who].Over? then {StateCv} else {}
    case ThreadStep(t, _) =>
      (match s.threads[t]
       case Born => {StateCv}
       case Leaving => BOTH
       case _ => {})
  }

  datatype World = World(s: Sys, asleep: set<Wait>)

  datatype Move =
    | Step(a: Act)
    | FallAsleep(w: Wait)   // finds the condition false and releases mStateLock, in one
    | Wake(w: Wait)         // a timeout, or no reason at all

  /** The wait the thread that takes the step would have to be awake from. */
  predicate OwnWait(s: Sys, a: Act, w: Wait) {
    match a
    case LifeStep(_, _) => w.Ready? || w.Callbacks?
    case ThreadStep(t, _) => (w.Released? || w.Nap?) && w.t == t
    case _ => false
  }

  ghost predicate CanMove(x: World, m: Move) {
    match m
    case Step(a) => Enabled(x.s, a) && forall w :: w in x.asleep ==> !OwnWait(x.s, a, w)
    case FallAsleep(w) => StandsAt(x.s, w) && !Satisfied(x.s.d, w)
    case Wake(w) => w in x.asleep
  }

  ghost function Moved(x: World, m: Move): World
    requires CanMove(x, m)
  {
    match m
    case Step(a) => World(Do(x.s, a), set w | w in x.asleep && CvOf(w) !in Broadcasts(x.s, a))
    case FallAsleep(w) => x.(asleep := x.asleep + {w})
    case Wake(w) => x.(asleep := x.asleep - {w})
  }

  ghost predicate IsHistory(run: seq<World>, moves: seq<Move>) {
    && |run| == |moves| + 1
    && run[0] == World(INITIAL, {})
    && forall i :: 0 <= i < |moves| ==> CanMove(run[i], moves[i]) && run[i + 1] == Moved(run[i], moves[i])
  }

  /** Whoever sleeps stands at its wait, and in vain. */
  ghost predicate SleepersInv(x: World) {
    forall w :: w in x.asleep ==> StandsAt(x.s, w) && !Satisfied(x.s.d, w)
  }

  lemma LifeDataBroadcasts(d: Shared, op: Op, pc: LifePc, cur: ThreadId, w: Wait)
    requires !Satisfied(d, w) && (w.Released? || w.Nap?) && CvOf(w) !in LifeBroadcasts(d, pc)
    ensures !Satisfied(LifeData(d, op, pc, cur), w)
  {
  }

  lemma LifeLeavesThreads(s: Sys, yes: bool, newId: ThreadId, t: ThreadId)
    requires LifeEnabled(s, newId) && t in s.threads
    ensures t in LifeDo(s, yes, newId).threads && LifeDo(s, yes, newId).threads[t] == s.threads[t]
  {
    if !s.life.pc.Create? {
      LifeMovesHolderOnly(s, yes, newId);
    }
  }

  lemma LifeWakes(s: Sys, yes: bool, newId: ThreadId, w: Wait)
    requires LifeEnabled(s, newId) && StandsAt(s, w) && !Satisfied(s.d, w) && (w.Released? || w.Nap?)
    requires CvOf(w) !in LifeBroadcasts(s.d, s.life.pc)
    ensures StandsAt(LifeDo(s, yes, newId), w) && !Satisfied(LifeDo(s, yes, newId).d, w)
  {
    LifeDataBroadcasts(s.d, s.life.op, s.life.pc, s.cur, w);
    LifeLeavesThreads(s, yes, newId, w.t);
  }

  lemma ThreadWakes(s: Sys, t: ThreadId, yes: bool, w: Wait)
    requires ThreadEnabled(s, t, yes) && StandsAt(s, w) && !Satisfied(s.d, w)
    requires !OwnWait(s, ThreadStep(t, yes), w) && CvOf(w) !in Broadcasts(s, ThreadStep(t, yes))
    ensures StandsAt(ThreadDo(s, t, yes), w) && !Satisfied(ThreadDo(s, t, yes).d, w)
  {
  }

  lemma CallWakes(s: Sys, a: Act, w: Wait)
    requires Enabled(s, a) && !a.LifeStep? && !a.ThreadStep? && StandsAt(s, w) && !Satisfied(s.d, w)
    requires CvOf(w) !in Broadcasts(s, a)
    ensures StandsAt(Do(s, a), w) && !Satisfied(Do(s, a).d, w)
  {
  }

  /** A step that satisfies somebody else's wait broadcasts its condition variable. */
  lemma SatisfyingBroadcasts(s: Sys, a: Act, w: Wait)
    requires Enabled(s, a) && StandsAt(s, w) && !Satisfied(s.d, w) && !OwnWait(s, a, w)
    ensures CvOf(w) in Broadcasts(s, a) || (StandsAt(Do(s, a), w) && !Satisfied(Do(s, a).d, w))
  {
    if CvOf(w) !in Broadcasts(s, a) {
      match a
      case LifeStep(yes, newId) => LifeWakes(s, yes, newId, w);
      case ThreadStep(t, yes) => ThreadWakes(s, t, yes, w);
      case _ => CallWakes(s, a, w);
    }
  }

  lemma MoveKeepsSleepers(x: World, m: Move)
    requires SleepersInv(x) && CanMove(x, m)
    ensures SleepersInv(Moved(x, m))
  {
    if m.Step? {
      forall w | w in Moved(x, m).asleep ensures StandsAt(Moved(x, m).s, w) && !Satisfied(Moved(x, m).s.d, w) {
        SatisfyingBroadcasts(x.s, m.a, w);
      }
    }
  }

  lemma {:induction false} SleepersInHistory(run: seq<World>, moves: seq<Move>, i: nat)
    requires IsHistory(run, moves) && i < |run|
    ensures SleepersInv(run[i])
  {
    if i > 0 {
      SleepersInHistory(run, moves, i - 1);
      MoveKeepsSleepers(run[i - 1], moves[i - 1]);
    }
  }

  /** With real sleepers the protocol gets nowhere it does not get without them, so all its theorems hold. */
  lemma {:induction false} SleepersAddNothing(run: seq<World>, moves: seq<Move>, i: nat)
    requires IsHistory(run, moves) && i < |run|
    ensures Reachable(run[i].s)
  {
    if i > 0 {
      SleepersAddNothing(run, moves, i - 1);
      if moves[i - 1].Step? {
        ReachStep(run[i - 1].s, moves[i - 1].a, run[i].s);
      }
    } else {
      assert IsRun([INITIAL], []) && [INITIAL][0] == INITIAL;
    }
  }

  lemma ReachableIsInv(s: Sys)
    requires Reachable(s)
    ensures Inv(s)
  {
    var run, acts :| IsRun(run, acts) && run[|acts|] == s;
    InvInRun(run, acts, |acts|);
  }

  /** No wake-up is lost: a thread sleeps only at its wait and only while the condition is false, so where a guard of
    * `LifeEnabled` or `ThreadEnabled` is open the thread is awake. */
  lemma NoLostWakeup(run: seq<World>, moves: seq<Move>, i: nat, w: Wait)
    requires IsHistory(run, moves) && i < |run| && w in run[i].asleep
    ensures StandsAt(run[i].s, w) && !Satisfied(run[i].s.d, w)
  {
    SleepersInHistory(run, moves, i);
  }

  /** Nobody is asleep in msleep once a stop is requested. */
  lemma StopWakesMsleep(run: seq<World>, moves: seq<Move>, i: nat, t: ThreadId)
    requires IsHistory(run, moves) && i < |run| && run[i].s.d.stopRequested
    ensures Nap(t) !in run[i].asleep
  {
    SleepersInHistory(run, moves, i);
    SleepersAddNothing(run, moves, i);
    ReachableIsInv(run[i].s);
  }
}
