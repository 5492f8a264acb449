/** WorkerThread as a step system: any number of threads calling start, join, stop and requestStop, and the
  * worker threads that start creates.
  *
  * A step is one critical section under mStateLock, one user callback entered or left, or one pthread call.
  * The holder of mLifecycleLock is one component; threads waiting for it are threads that may take it. A worker
  * thread may call start from run, which blocks it at that lock, and stop, which there only requests. */
module WorkerProtocol {
  import opened WorkerState

  /** Calls of the user's IWorker, as they begin and end. */
  datatype Event = Prepared(ok: bool) | RunBegin | RunEnd | StopBegin | StopEnd | CleanupBegin | CleanupEnd

  datatype Op = Start(worker: Worker) | Join | Stop

  /** The three positions of a thread that owes or makes an onStopRequested call. */
  datatype CbPc = Owed | Inside | Over

  datatype LifePc =
    | Enter            // first look at mState
    | Begin            // start: claim the object
    | InitAttr         // pthread_attr_init
    | Prepare          // inside onPrepare
    | Create           // pthread_create
    | Fail(prepared: bool)      // start: resetToIdle; prepared: onCleanup is due
    | FailCleanup(inside: bool) // start: onCleanup after a failed pthread_create
    | Publish          // start: store mId
    | AwaitReady       // start: wait for mThreadReady, then release the thread
    | RequestStop      // stop: requestStop's first section
    | Callback(at: CbPc)        // start or stop: onStopRequested
    | StopCheck        // stop: look at mState again
    | JoinLook         // joinLocked: read the state and mId
    | JoinThread(id: ThreadId)  // pthread_join
    | JoinAwait        // joinLocked: wait for mCallbacksInProgress == 0, take mWorker
    | Cleanup(inside: bool)     // joinLocked: onCleanup
    | JoinReset        // joinLocked: resetStateLocked

  datatype Life = Free | Held(owner: ThreadId, op: Op, pc: LifePc)

  datatype WorkPc =
    | Born             // before the section that sets mThreadReady
    | AwaitRelease     // waiting for mStartReleased
    | Entering(worker: Worker)
    | Run              // inside run()
    | Asleep           // inside run(), in msleep's wait
    | CallsStart(worker: Worker) // inside run(), in start, waiting for mLifecycleLock
    | InsideStart      // inside run(), in start, holding it or about to return
    | Leaving          // before the section that stores Exited
    | Dead

  datatype Sys = Sys(
    d: Shared,
    life: Life,
    requesters: map<ThreadId, CbPc>,  // other requestStop callers that owe or make the callback
    threads: map<ThreadId, WorkPc>,
    cur: ThreadId,        // history: the thread created last
    unjoined: bool,       // history: that thread's session is not reset yet
    notified: bool,       // history: in this session somebody has come to owe onStopRequested
    open: bool,           // history: a session is under way
    trace: seq<Event>,    // history: the calls of this session
    sessions: seq<seq<Event>>) // history: the calls of each finished session

  datatype Act =
    | Call(who: ThreadId, op: Op)     // take mLifecycleLock in start, join or stop
    | StartFromRun(t: ThreadId, worker: Worker)  // run() calls start
    | LifeStep(yes: bool, newId: ThreadId)
    | RequestBy(who: ThreadId)        // requestStop from anywhere, the worker itself included
    | RequesterStep(who: ThreadId)
    | ThreadStep(t: ThreadId, yes: bool)

  function Emit(s: Sys, e: Event): Sys {
    s.(trace := s.trace + [e])
  }

  function CloseSession(s: Sys): Sys {
    s.(open := false, trace := [], sessions := s.sessions + [s.trace])
  }

  /** An id for a new thread: not that of any thread there is. */
  predicate Fresh(s: Sys, id: ThreadId) {
    id != NO_THREAD && id !in s.threads && id !in s.requesters && !Holds(s, id)
  }

  predicate Holds(s: Sys, t: ThreadId) {
    s.life.Held? && s.life.owner == t
  }

  predicate LifeEnabled(s: Sys, newId: ThreadId) {
    s.life.Held? &&
    match s.life.pc
    case Create => Fresh(s, newId)
    case AwaitReady => s.d.threadReady
    case JoinThread(id) => id in s.threads && s.threads[id] == Dead
    case JoinAwait => s.d.callbacks == 0
    case _ => true
  }

  /** What one step of the holder of mLifecycleLock does to the shared data. */
  function LifeData(d: Shared, op: Op, pc: LifePc, cur: ThreadId): Shared {
    match pc
    case Begin => if op.Start? then Claim(d, op.worker).0 else d
    case Fail(_) => RESET
    case Publish => d.(id := cur)
    case AwaitReady => Release(d).0
    case RequestStop => Request(d).0
    case Callback(at) => if at.Over? then CallbackDone(d) else d
    case JoinAwait => d.(worker := NO_WORKER)
    case JoinReset => RESET
    case _ => d
  }

  datatype Next = To(pc: LifePc) | Return

  /** joinLocked returns: start goes on, join and stop return. */
  function AfterJoin(op: Op): Next {
    if op.Start? then To(Begin) else Return
  }

  /** Where it goes. */
  function LifeNext(d: Shared, op: Op, pc: LifePc, yes: bool): Next {
    match pc
    case Enter =>
      (match op
       case Start(_) => To(if d.state == Exited then JoinLook else Begin)
       case Join => if d.state == Idle then Return else To(JoinLook)
       case Stop => To(RequestStop))
    case Begin => if op.Start? && Claim(d, op.worker).1 then To(InitAttr) else Return
    case InitAttr => To(if yes then Prepare else Fail(false))
    case Prepare => To(if yes then Create else Fail(false))
    case Create => To(if yes then Publish else Fail(true))
    case Fail(prepared) => if prepared then To(FailCleanup(false)) else Return
    case FailCleanup(inside) => if inside then Return else To(FailCleanup(true))
    case Publish => To(AwaitReady)
    case AwaitReady => if Release(d).1 then To(Callback(Owed)) else Return
    case RequestStop => To(if Request(d).1 then Callback(Owed) else StopCheck)
    case Callback(at) =>
      (match at
       case Owed => To(Callback(Inside))
       case Inside => To(Callback(Over))
       case Over => if op.Start? then Return else To(StopCheck))
    case StopCheck => if d.state == Idle then Return else To(JoinLook)
    case JoinLook => if d.state == Idle || d.state == Starting then AfterJoin(op) else To(JoinThread(d.id))
    case JoinThread(_) => To(JoinAwait)
    case JoinAwait => To(if d.worker != NO_WORKER then Cleanup(false) else JoinReset)
    case Cleanup(inside) => To(if inside then JoinReset else Cleanup(true))
    case JoinReset => AfterJoin(op)
  }

  /** Positions that may end a session. */
  predicate Ending(pc: LifePc) {
    pc.Fail? || pc.FailCleanup? || pc.JoinReset?
  }

  /** What it leaves in the histories of a session that failed or was joined. */
  function LastHistory(s: Sys): (s': Sys)
    requires s.life.Held? && Ending(s.life.pc)
    ensures s'.requesters == s.requesters && s'.threads == s.threads
  {
    match s.life.pc
    case Fail(prepared) => if prepared then s else CloseSession(s)
    case FailCleanup(inside) => if inside then CloseSession(Emit(s, CleanupEnd)) else Emit(s, CleanupBegin)
    case JoinReset => CloseSession(s).(unjoined := false, notified := false)
  }

  /** What it leaves in the histories of the others. */
  function LifeHistory(s: Sys, yes: bool): (s': Sys)
    requires s.life.Held?
    ensures s'.sessions == s.sessions && s'.requesters == s.requesters && s'.threads == s.threads
  {
    match s.life.pc
    case Begin =>
      if s.life.op.Start? && Claim(s.d, s.life.op.worker).1 then s.(open := true, trace := []) else s
    case Prepare => Emit(s, Prepared(yes))
    case AwaitReady => s.(notified := s.notified || Release(s.d).1)
    case RequestStop => s.(notified := s.notified || Request(s.d).1)
    case Callback(at) => if at.Over? then s else Emit(s, if at.Owed? then StopBegin else StopEnd)
    case Cleanup(inside) => Emit(s, if inside then CleanupEnd else CleanupBegin)
    case _ => s
  }

  function LifeAfter(l: Life, next: Next): Life
    requires l.Held?
  {
    match next
    case To(pc) => l.(pc := pc)
    case Return => Free
  }

  /** pthread_create. */
  function AddThread(s: Sys, id: ThreadId): Sys {
    s.(threads := s.threads[id := Born], cur := id, unjoined := true)
  }

  /** All but the shared data. */
  function LifeMove(s: Sys, yes: bool, newId: ThreadId): Sys
    requires LifeEnabled(s, newId)
  {
    (if s.life.pc.Create? && yes then AddThread(s, newId)
     else if Ending(s.life.pc) then LastHistory(s) else LifeHistory(s, yes))
    .(life := LifeAfter(s.life, LifeNext(s.d, s.life.op, s.life.pc, yes)))
  }

  /** One step of the holder of mLifecycleLock. */
  function LifeDo(s: Sys, yes: bool, newId: ThreadId): Sys
    requires LifeEnabled(s, newId)
  {
    LifeMove(s, yes, newId).(d := LifeData(s.d, s.life.op, s.life.pc, s.cur))
  }

  function RequesterDo(s: Sys, who: ThreadId): (s': Sys)
    requires who in s.requesters
    ensures s'.sessions == s.sessions
  {
    match s.requesters[who]
    case Owed => Emit(s, StopBegin).(requesters := s.requesters[who := Inside])
    case Inside => Emit(s, StopEnd).(requesters := s.requesters[who := Over])
    case Over => s.(d := CallbackDone(s.d), requesters := s.requesters - {who})
  }

  predicate ThreadEnabled(s: Sys, t: ThreadId, yes: bool) {
    t in s.threads && t !in s.requesters &&
    match s.threads[t]
    case AwaitRelease => s.d.startReleased
    case Asleep => SleepOver(s.d) || yes
    case CallsStart(_) => false
    case InsideStart => !Holds(s, t)
    case Dead => false
    case _ => true
  }

  function SetThread(s: Sys, t: ThreadId, pc: WorkPc): Sys {
    s.(threads := s.threads[t := pc])
  }

  /** The parts of the state that tell what onStopRequested has done. */
  predicate SameStops(s: Sys, s': Sys) {
    && s'.notified == s.notified && s'.life == s.life && s'.requesters == s.requesters
    && s'.d.callbacks == s.d.callbacks
  }

  /** One step of a worker thread: taskEntry, and msleep called from run. `yes` in Run is a call of msleep,
    * in Asleep a timeout. */
  function ThreadDo(s: Sys, t: ThreadId, yes: bool): (s': Sys)
    requires ThreadEnabled(s, t, yes)
    ensures s'.sessions == s.sessions && s'.open == s.open && SameStops(s, s')
  {
    match s.threads[t]
    case Born => SetThread(s, t, AwaitRelease).(d := s.d.(threadReady := true))
    case AwaitRelease => SetThread(s, t, Entering(s.d.worker))
    case Entering(w) => if w == NO_WORKER then SetThread(s, t, Leaving) else SetThread(Emit(s, RunBegin), t, Run)
    case Run =>
      if yes then
        if IsCurrentThread(s.d, t) && s.d.state == Running && !SleepOver(s.d) then SetThread(s, t, Asleep)
        else if IsCurrentThread(s.d, t) && s.d.state == Running then s.(d := s.d.(wakeupRequested := false))
        else s
      else SetThread(Emit(s, RunEnd), t, Leaving)
    case Asleep => SetThread(s, t, Run).(d := s.d.(wakeupRequested := false))
    case InsideStart => SetThread(s, t, Run)
    case Leaving => SetThread(s, t, Dead).(d := s.d.(state := Exited))
    case _ => s
  }

  /** A thread that calls is a user's thread or the worker inside run, and not inside another call. */
  predicate Enabled(s: Sys, a: Act) {
    match a
    case Call(who, op) =>
      && s.life.Free? && who !in s.requesters
      && (if op.Start? then op.worker != NO_WORKER   // start takes a reference
          else !IsCurrentThread(s.d, who))
      && (who in s.threads ==> op.Start? && s.threads[who] == CallsStart(op.worker))
    case StartFromRun(t, w) => t in s.threads && t !in s.requesters && s.threads[t].Run? && w != NO_WORKER
    case LifeStep(_, newId) => LifeEnabled(s, newId)
    case RequestBy(who) => who !in s.requesters && !Holds(s, who) && (who in s.threads ==> s.threads[who].Run?)
    case RequesterStep(who) => who in s.requesters
    case ThreadStep(t, yes) => ThreadEnabled(s, t, yes)
  }

  function Do(s: Sys, a: Act): Sys
    requires Enabled(s, a)
  {
    match a
    case Call(who, op) =>
      (if who in s.threads then SetThread(s, who, InsideStart) else s).(life := Held(who, op, Enter))
    case StartFromRun(t, w) => SetThread(s, t, CallsStart(w))
    case LifeStep(yes, newId) => LifeDo(s, yes, newId)
    case RequestBy(who) =>
      var (d, owed) := Request(s.d);
      if owed then s.(d := d, notified := true, requesters := s.requesters[who := Owed]) else s.(d := d)
    case RequesterStep(who) => RequesterDo(s, who)
    case ThreadStep(t, yes) => ThreadDo(s, t, yes)
  }

  const INITIAL := Sys(RESET, Free, map[], map[], NO_THREAD, false, false, false, [], [])

  ghost predicate IsRun(run: seq<Sys>, acts: seq<Act>) {
    && |run| == |acts| + 1
    && run[0] == INITIAL
    && forall i :: 0 <= i < |acts| ==> Enabled(run[i], acts[i]) && run[i + 1] == Do(run[i], acts[i])
  }

  // ---------------------------------------------------------------- the language of a session

  predicate IsRunEvent(e: Event) { e.RunBegin? || e.RunEnd? }

  predicate IsStopEvent(e: Event) { e.StopBegin? || e.StopEnd? }

  /** The run events of a word, in order. */
  function RunPart(w: seq<Event>): seq<Event> {
    if w == [] then []
    else RunPart(w[..|w| - 1]) + if IsRunEvent(w[|w| - 1]) then [w[|w| - 1]] else []
  }

  /** The onStopRequested events of a word, in order. */
  function StopPart(w: seq<Event>): seq<Event> {
    if w == [] then []
    else StopPart(w[..|w| - 1]) + if IsStopEvent(w[|w| - 1]) then [w[|w| - 1]] else []
  }

  /** run() and onStopRequested() interleaved, each as far as given. */
  predicate Shuffle(w: seq<Event>, runs: seq<Event>, stops: seq<Event>) {
    (forall e :: e in w ==> IsRunEvent(e) || IsStopEvent(e)) && RunPart(w) == runs && StopPart(w) == stops
  }

  /** A finished session: nothing, if pthread_attr_init failed; a failed onPrepare; onPrepare and onCleanup, if
    * pthread_create failed; or onPrepare, one run() and at most one onStopRequested() in any interleaving, and
    * one onCleanup() after both have finished. */
  predicate Complete(w: seq<Event>) {
    || w == []
    || w == [Prepared(false)]
    || w == [Prepared(true), CleanupBegin, CleanupEnd]
    || (|w| >= 3 && w[0] == Prepared(true) && w[|w| - 2..] == [CleanupBegin, CleanupEnd]
        && var body := w[1..|w| - 2];
           Shuffle(body, [RunBegin, RunEnd], []) || Shuffle(body, [RunBegin, RunEnd], [StopBegin, StopEnd]))
  }

  // ---------------------------------------------------------------- the invariant

  function CurPc(s: Sys): WorkPc {
    if s.cur in s.threads then s.threads[s.cur] else Dead
  }

  /** Only the thread created last can be alive, and only until its session is reset. */
  ghost predicate ThreadsInv(s: Sys) {
    && (forall t :: t in s.threads && t != s.cur ==> s.threads[t] == Dead)
    && (s.unjoined ==> s.cur in s.threads)
    && (!s.unjoined ==> CurPc(s) == Dead)
  }

  predicate LifeAt(s: Sys, pc: LifePc) {
    s.life.Held? && s.life.pc == pc
  }

  predicate CallingBack(l: Life) {
    l.Held? && l.pc.Callback?
  }

  /** Positions of the holder of mLifecycleLock in the middle of start. */
  predicate InStart(l: Life) {
    l.Held? && l.op.Start?
    && (l.pc.InitAttr? || l.pc.Prepare? || l.pc.Create? || l.pc.Fail? || l.pc.Publish? || l.pc.AwaitReady?)
  }

  /** Positions that go with any state but Starting. */
  predicate Looking(l: Life) {
    l.Free? || l.pc.Enter? || (l.pc.Begin? && l.op.Start?) || (l.pc.RequestStop? && l.op.Stop?)
    || (l.pc.StopCheck? && l.op.Stop?) || l.pc.JoinLook?
  }

  /** Once the state is past Starting the thread has been released with its worker, under its own id. */
  predicate Released(s: Sys) {
    && s.open && s.unjoined && s.d.id == s.cur && s.d.threadReady && s.d.startReleased
  }

  predicate InRun(w: WorkPc) {
    w == Run || w == Asleep || w.CallsStart? || w == InsideStart
  }

  predicate InTask(w: WorkPc, worker: Worker) {
    w == AwaitRelease || InRun(w) || w == Leaving || w == Entering(worker)
  }

  predicate StartingOk(s: Sys) {
    && InStart(s.life) && s.open && s.d.worker != NO_WORKER && !s.d.startReleased && !s.notified
    && s.d.callbacks == 0 && (s.d.wakeupRequested ==> s.d.stopRequested)
    && (s.unjoined <==> s.life.pc.Publish? || s.life.pc.AwaitReady?)
    && (s.life.pc.AwaitReady? ==> s.d.id == s.cur)
    && (s.d.threadReady <==> s.unjoined && CurPc(s) == AwaitRelease)
    && (s.unjoined ==> CurPc(s) == Born || CurPc(s) == AwaitRelease)
  }

  predicate StateInv(s: Sys) {
    match s.d.state
    case Idle =>
      && !s.unjoined && !s.notified && s.d == RESET
      && (if s.open then s.life.Held? && s.life.pc.FailCleanup? else Looking(s.life) && !LifeAt(s, JoinLook))
    case Starting => StartingOk(s)
    case Running =>
      && Released(s) && s.d.worker != NO_WORKER && InTask(CurPc(s), s.d.worker) && !s.notified
      && !s.d.stopRequested && !s.d.wakeupRequested
      && (Looking(s.life) || LifeAt(s, JoinThread(s.cur)))
    case Stopping =>
      && Released(s) && s.d.worker != NO_WORKER && InTask(CurPc(s), s.d.worker) && s.notified
      && s.d.stopRequested
      && (Looking(s.life) || LifeAt(s, JoinThread(s.cur)) || CallingBack(s.life))
    case Exited =>
      && Released(s) && CurPc(s) == Dead
      && (if s.life.Held? && (s.life.pc.Cleanup? || s.life.pc.JoinReset?)
          then s.d.worker == NO_WORKER && s.d.callbacks == 0
          else s.d.worker != NO_WORKER
               && (Looking(s.life) || LifeAt(s, JoinThread(s.cur)) || LifeAt(s, JoinAwait) || CallingBack(s.life)))
  }

  /** The counter is the number of threads between their increment and their decrement, at most one. */
  predicate CallbacksInv(s: Sys) {
    && s.d.callbacks == |s.requesters| + (if CallingBack(s.life) then 1 else 0)
    && s.d.callbacks <= 1
    && (s.d.callbacks > 0 ==> s.notified)
    && (CallingBack(s.life) ==> s.life.op.Start? || s.life.op.Stop?)
  }

  function WorkTrace(w: WorkPc): seq<Event> {
    match w
    case Run => [RunBegin]
    case Asleep => [RunBegin]
    case CallsStart(_) => [RunBegin]
    case InsideStart => [RunBegin]
    case Leaving => [RunBegin, RunEnd]
    case Dead => [RunBegin, RunEnd]
    case _ => []
  }

  function CallbackTrace(at: CbPc): seq<Event> {
    match at
    case Owed => []
    case Inside => [StopBegin]
    case Over => [StopBegin, StopEnd]
  }

  /** What of onStopRequested has happened in this session, read off the positions. */
  ghost predicate StopTraceIs(s: Sys, w: seq<Event>) {
    && (!s.notified ==> w == [])
    && (CallingBack(s.life) ==> w == CallbackTrace(s.life.pc.at))
    && (forall r :: r in s.requesters ==> w == CallbackTrace(s.requesters[r]))
    && (s.notified && s.d.callbacks == 0 ==> w == [StopBegin, StopEnd])
  }

  function CleanupTrace(l: Life): seq<Event> {
    if l.Free? then []
    else if l.pc == Cleanup(true) then [CleanupBegin]
    else if l.pc == JoinReset then [CleanupBegin, CleanupEnd]
    else []
  }

  /** The part of the trace between onPrepare and onCleanup. */
  function Body(trace: seq<Event>, tail: nat): seq<Event>
    requires |trace| >= 1 + tail
  {
    trace[1..|trace| - tail]
  }

  /** onPrepare, then a shuffle with `work` as its run part, then `tail`. */
  predicate WorkingWord(trace: seq<Event>, tail: seq<Event>, work: seq<Event>) {
    && |trace| >= 1 + |tail|
    && trace[0] == Prepared(true)
    && trace[|trace| - |tail|..] == tail
    && Shuffle(Body(trace, |tail|), work, StopPart(Body(trace, |tail|)))
  }

  ghost predicate WorkingTrace(s: Sys) {
    var tail := CleanupTrace(s.life);
    WorkingWord(s.trace, tail, WorkTrace(CurPc(s))) && StopTraceIs(s, StopPart(Body(s.trace, |tail|)))
  }

  predicate EarlyTrace(pc: LifePc, trace: seq<Event>) {
    match pc
    case InitAttr => trace == []
    case Prepare => trace == []
    case Fail(prepared) => if prepared then trace == [Prepared(true)] else trace == [] || trace == [Prepared(false)]
    case FailCleanup(inside) => trace == if inside then [Prepared(true), CleanupBegin] else [Prepared(true)]
    case _ => trace == [Prepared(true)]
  }

  ghost predicate TraceNow(s: Sys) {
    if !s.open then s.trace == []
    else if s.d.state == Idle || s.d.state == Starting then s.life.Held? && EarlyTrace(s.life.pc, s.trace)
    else WorkingTrace(s)
  }

  ghost predicate TraceInv(s: Sys) {
    TraceNow(s) && forall w :: w in s.sessions ==> Complete(w)
  }

  ghost predicate Inv(s: Sys) {
    Core(s) && TraceInv(s)
  }

  // ---------------------------------------------------------------- preservation

  lemma RunPartSnoc(w: seq<Event>, e: Event)
    ensures RunPart(w + [e]) == RunPart(w) + if IsRunEvent(e) then [e] else []
  {
    assert (w + [e])[..|w|] == w;
  }

  lemma StopPartSnoc(w: seq<Event>, e: Event)
    ensures StopPart(w + [e]) == StopPart(w) + if IsStopEvent(e) then [e] else []
  {
    assert (w + [e])[..|w|] == w;
  }

  /** Threads, states and counters, without the trace. */
  ghost predicate Core(s: Sys) {
    && ThreadsInv(s) && StateInv(s) && CallbacksInv(s)
    && (s.life.Held? && s.life.op.Start? ==> s.life.op.worker != NO_WORKER)
  }

  lemma LifeInStartKeepsCore(s: Sys, yes: bool, newId: ThreadId)
    requires Core(s) && LifeEnabled(s, newId) && InStart(s.life)
    requires !s.life.pc.Publish? && !s.life.pc.AwaitReady?
    ensures Core(LifeDo(s, yes, newId))
  {
  }

  lemma LifePublishKeepsCore(s: Sys, yes: bool, newId: ThreadId)
    requires Core(s) && LifeEnabled(s, newId) && InStart(s.life) && s.life.pc.Publish?
    ensures Core(LifeDo(s, yes, newId))
  {
  }

  lemma LifeReleaseKeepsCore(s: Sys, yes: bool, newId: ThreadId)
    requires Core(s) && LifeEnabled(s, newId) && InStart(s.life) && s.life.pc.AwaitReady?
    ensures Core(LifeDo(s, yes, newId))
  {
  }

  lemma LifeBeginKeepsCore(s: Sys, yes: bool, newId: ThreadId)
    requires Core(s) && LifeEnabled(s, newId) && s.life.pc.Begin? && s.life.op.Start?
    ensures Core(LifeDo(s, yes, newId))
  {
  }

  lemma LifeRequestKeepsCore(s: Sys, yes: bool, newId: ThreadId)
    requires Core(s) && LifeEnabled(s, newId) && s.life.pc.RequestStop? && s.life.op.Stop?
    ensures Core(LifeDo(s, yes, newId))
  {
  }

  lemma LifeLookingKeepsCore(s: Sys, yes: bool, newId: ThreadId)
    requires Core(s) && LifeEnabled(s, newId)
    requires s.life.pc.Enter? || (s.life.pc.StopCheck? && s.life.op.Stop?) || s.life.pc.JoinLook?
    ensures Core(LifeDo(s, yes, newId))
  {
  }

  lemma LifeCallbackKeepsCore(s: Sys, yes: bool, newId: ThreadId)
    requires Core(s) && LifeEnabled(s, newId) && CallingBack(s.life)
    ensures Core(LifeDo(s, yes, newId))
  {
  }

  lemma LifeJoinKeepsCore(s: Sys, yes: bool, newId: ThreadId)
    requires Core(s) && LifeEnabled(s, newId)
    requires s.life.pc.JoinThread? || s.life.pc.JoinAwait?
    ensures Core(LifeDo(s, yes, newId))
  {
  }

  lemma LifeCleanupKeepsCore(s: Sys, yes: bool, newId: ThreadId)
    requires Core(s) && LifeEnabled(s, newId)
    requires s.life.pc.Cleanup? || s.life.pc.JoinReset? || s.life.pc.FailCleanup?
    ensures Core(LifeDo(s, yes, newId))
  {
  }

  lemma LifeKeepsCore(s: Sys, yes: bool, newId: ThreadId)
    requires Core(s) && LifeEnabled(s, newId)
    ensures Core(LifeDo(s, yes, newId))
  {
    match s.life.pc
    case Begin => LifeBeginKeepsCore(s, yes, newId);
    case RequestStop => LifeRequestKeepsCore(s, yes, newId);
    case Enter => LifeLookingKeepsCore(s, yes, newId);
    case StopCheck => LifeLookingKeepsCore(s, yes, newId);
    case JoinLook => LifeLookingKeepsCore(s, yes, newId);
    case Callback(_) => LifeCallbackKeepsCore(s, yes, newId);
    case JoinThread(_) => LifeJoinKeepsCore(s, yes, newId);
    case JoinAwait => LifeJoinKeepsCore(s, yes, newId);
    case Cleanup(_) => LifeCleanupKeepsCore(s, yes, newId);
    case JoinReset => LifeCleanupKeepsCore(s, yes, newId);
    case FailCleanup(_) => LifeCleanupKeepsCore(s, yes, newId);
    case Publish => LifePublishKeepsCore(s, yes, newId);
    case AwaitReady => LifeReleaseKeepsCore(s, yes, newId);
    case _ => LifeInStartKeepsCore(s, yes, newId);
  }

  lemma RequestKeepsCore(s: Sys, a: Act)
    requires Core(s) && Enabled(s, a) && a.RequestBy?
    ensures Core(Do(s, a))
  {
  }

  lemma RequesterKeepsCore(s: Sys, who: ThreadId)
    requires Core(s) && who in s.requesters
    ensures Core(RequesterDo(s, who))
  {
    assert |s.requesters - {who}| == |s.requesters| - 1;
  }

  lemma ThreadInRunKeepsCore(s: Sys, t: ThreadId, yes: bool)
    requires Core(s) && ThreadEnabled(s, t, yes) && InRun(s.threads[t])
    ensures Core(ThreadDo(s, t, yes))
  {
  }

  lemma ThreadKeepsCore(s: Sys, t: ThreadId, yes: bool)
    requires Core(s) && ThreadEnabled(s, t, yes)
    ensures Core(ThreadDo(s, t, yes))
  {
    if InRun(s.threads[t]) {
      ThreadInRunKeepsCore(s, t, yes);
    }
  }

  lemma CallKeepsCore(s: Sys, a: Act)
    requires Core(s) && Enabled(s, a) && (a.Call? || a.StartFromRun?)
    ensures Core(Do(s, a))
  {
  }

  lemma StepKeepsCore(s: Sys, a: Act)
    requires Core(s) && Enabled(s, a)
    ensures Core(Do(s, a))
  {
    match a
    case Call(_, _) => CallKeepsCore(s, a);
    case StartFromRun(_, _) => CallKeepsCore(s, a);
    case LifeStep(yes, newId) => LifeKeepsCore(s, yes, newId);
    case RequestBy(_) => RequestKeepsCore(s, a);
    case RequesterStep(who) => RequesterKeepsCore(s, who);
    case ThreadStep(t, yes) => ThreadKeepsCore(s, t, yes);
  }

  // the trace

  /** A step that adds nothing to the trace of a working session. */
  lemma WorkingStays(s: Sys, s': Sys)
    requires WorkingTrace(s) && s'.trace == s.trace
    requires CleanupTrace(s'.life) == CleanupTrace(s.life) && WorkTrace(CurPc(s')) == WorkTrace(CurPc(s))
    requires forall w :: StopTraceIs(s, w) ==> StopTraceIs(s', w)
    ensures WorkingTrace(s')
  {
  }

  lemma WordGrows(trace: seq<Event>, work: seq<Event>, e: Event)
    requires WorkingWord(trace, [], work) && (IsRunEvent(e) || IsStopEvent(e))
    ensures WorkingWord(trace + [e], [], work + if IsRunEvent(e) then [e] else [])
    ensures StopPart(Body(trace + [e], 0)) == StopPart(Body(trace, 0)) + if IsStopEvent(e) then [e] else []
  {
    var body := Body(trace, 0);
    assert Body(trace + [e], 0) == body + [e];
    RunPartSnoc(body, e);
    StopPartSnoc(body, e);
  }

  /** run() begins or ends. */
  lemma WorkingRuns(s: Sys, s': Sys, e: Event)
    requires WorkingTrace(s) && IsRunEvent(e) && s'.trace == s.trace + [e]
    requires CleanupTrace(s.life) == CleanupTrace(s'.life) == []
    requires WorkTrace(CurPc(s')) == WorkTrace(CurPc(s)) + [e]
    requires forall w :: StopTraceIs(s, w) ==> StopTraceIs(s', w)
    ensures WorkingTrace(s')
  {
    WordGrows(s.trace, WorkTrace(CurPc(s)), e);
  }

  /** onStopRequested() begins or ends. */
  lemma WorkingStops(s: Sys, s': Sys, e: Event)
    requires WorkingTrace(s) && IsStopEvent(e) && s'.trace == s.trace + [e]
    requires CleanupTrace(s.life) == CleanupTrace(s'.life) == []
    requires WorkTrace(CurPc(s')) == WorkTrace(CurPc(s))
    requires forall w :: StopTraceIs(s, w) ==> StopTraceIs(s', w + [e])
    ensures WorkingTrace(s')
  {
    WordGrows(s.trace, WorkTrace(CurPc(s)), e);
  }

  lemma SameStopTrace(s: Sys, s': Sys)
    requires SameStops(s, s')
    ensures forall w :: StopTraceIs(s, w) ==> StopTraceIs(s', w)
  {
  }

  /** What a worker thread's step does to the history. */
  lemma ThreadMoves(s: Sys, t: ThreadId, yes: bool)
    requires ThreadEnabled(s, t, yes) && t == s.cur
    ensures var s' := ThreadDo(s, t, yes);
            && (s'.d.state == s.d.state || (s.threads[t].Leaving? && s'.d.state == Exited))
            && (if s.threads[t].Entering? && s.threads[t].worker != NO_WORKER then
                  s'.trace == s.trace + [RunBegin] && WorkTrace(CurPc(s')) == WorkTrace(CurPc(s)) + [RunBegin]
                else if s.threads[t].Run? && !yes then
                  s'.trace == s.trace + [RunEnd] && WorkTrace(CurPc(s')) == WorkTrace(CurPc(s)) + [RunEnd]
                else s'.trace == s.trace && (s.threads[t].Entering? || WorkTrace(CurPc(s')) == WorkTrace(CurPc(s))))
  {
    assert [RunBegin] + [RunEnd] == [RunBegin, RunEnd];
  }

  lemma ThreadKeepsTrace(s: Sys, t: ThreadId, yes: bool)
    requires Inv(s) && ThreadEnabled(s, t, yes)
    ensures TraceNow(ThreadDo(s, t, yes))
  {
    var s' := ThreadDo(s, t, yes);
    ThreadMoves(s, t, yes);
    SameStopTrace(s, s');
    if s.d.state == Starting {
      EarlyIsNow(s');
    } else {
      ThreadKeepsWord(s, s', t, yes);
    }
  }

  lemma ThreadKeepsWord(s: Sys, s': Sys, t: ThreadId, yes: bool)
    requires WorkingTrace(s) && t == s.cur && t in s.threads && s'.life == s.life
    requires forall w :: StopTraceIs(s, w) ==> StopTraceIs(s', w)
    requires s.threads[t].Entering? || s.threads[t].Run? ==> CleanupTrace(s.life) == []
    requires if s.threads[t].Entering? then
               s'.trace == s.trace + [RunBegin] && WorkTrace(CurPc(s')) == WorkTrace(CurPc(s)) + [RunBegin]
             else if s.threads[t].Run? && !yes then
               s'.trace == s.trace + [RunEnd] && WorkTrace(CurPc(s')) == WorkTrace(CurPc(s)) + [RunEnd]
             else s'.trace == s.trace && WorkTrace(CurPc(s')) == WorkTrace(CurPc(s))
    ensures WorkingTrace(s')
  {
    if s.threads[t].Entering? {
      WorkingRuns(s, s', RunBegin);
    } else if s.threads[t].Run? && !yes {
      WorkingRuns(s, s', RunEnd);
    } else {
      WorkingStays(s, s');
    }
  }

  lemma OneRequester(s: Sys, who: ThreadId)
    requires CallbacksInv(s) && who in s.requesters
    ensures !CallingBack(s.life) && forall r :: r in s.requesters ==> r == who
  {
    assert |s.requesters.Keys - {who}| == 0;
  }

  lemma RequesterKeepsTrace(s: Sys, who: ThreadId)
    requires Inv(s) && who in s.requesters
    ensures TraceNow(RequesterDo(s, who))
  {
    var s' := RequesterDo(s, who);
    OneRequester(s, who);
    match s.requesters[who]
    case Owed => WorkingStops(s, s', StopBegin);
    case Inside => WorkingStops(s, s', StopEnd);
    case Over => WorkingStays(s, s');
  }

  lemma RequestKeepsTrace(s: Sys, a: Act)
    requires Inv(s) && Enabled(s, a) && a.RequestBy?
    ensures TraceNow(Do(s, a))
  {
    if s.d.state == Running || s.d.state == Stopping || s.d.state == Exited {
      WorkingStays(s, Do(s, a));
    }
  }

  lemma CallMoves(s: Sys, a: Act)
    requires ThreadsInv(s) && Enabled(s, a) && (a.Call? || a.StartFromRun?)
    ensures var s' := Do(s, a);
            && s' == s.(threads := s'.threads, life := s'.life) && WorkTrace(CurPc(s')) == WorkTrace(CurPc(s))
            && (s'.life == s.life || (s.life.Free? && s'.life.Held? && s'.life.pc.Enter?))
  {
  }

  lemma CallKeepsTrace(s: Sys, a: Act)
    requires Inv(s) && Enabled(s, a) && (a.Call? || a.StartFromRun?)
    ensures TraceNow(Do(s, a))
  {
    CallMoves(s, a);
    CallKeepsWord(s, Do(s, a));
  }

  lemma CallKeepsWord(s: Sys, s': Sys)
    requires StateInv(s) && TraceNow(s)
    requires s' == s.(threads := s'.threads, life := s'.life) && WorkTrace(CurPc(s')) == WorkTrace(CurPc(s))
    requires s'.life == s.life || (s.life.Free? && s'.life.Held? && s'.life.pc.Enter?)
    ensures TraceNow(s')
  {
    if s.open && s.d.state != Idle && s.d.state != Starting {
      WorkingStays(s, s');
    }
  }

  lemma FailTraceMoves(s: Sys, yes: bool, newId: ThreadId)
    requires LifeEnabled(s, newId) && s.life.pc.Fail? && s.open && EarlyTrace(s.life.pc, s.trace)
    ensures var s' := LifeMove(s, yes, newId);
            if s'.open then s'.life.Held? && EarlyTrace(s'.life.pc, s'.trace) else s'.trace == []
  {
  }

  lemma PrepareTraceMoves(s: Sys, yes: bool, newId: ThreadId)
    requires LifeEnabled(s, newId) && (s.life.pc.InitAttr? || s.life.pc.Prepare?)
    requires s.open && EarlyTrace(s.life.pc, s.trace)
    ensures var s' := LifeMove(s, yes, newId); s'.open && s'.life.Held? && EarlyTrace(s'.life.pc, s'.trace)
  {
  }

  lemma CreateTraceMoves(s: Sys, yes: bool, newId: ThreadId)
    requires LifeEnabled(s, newId) && (s.life.pc.Create? || s.life.pc.Publish?)
    requires s.open && EarlyTrace(s.life.pc, s.trace)
    ensures var s' := LifeMove(s, yes, newId); s'.open && s'.life.Held? && EarlyTrace(s'.life.pc, s'.trace)
  {
  }

  /** start before the release: the trace goes with the position alone. */
  lemma StartTraceMoves(s: Sys, yes: bool, newId: ThreadId)
    requires LifeEnabled(s, newId) && InStart(s.life) && !s.life.pc.AwaitReady?
    requires s.open && EarlyTrace(s.life.pc, s.trace)
    ensures var s' := LifeMove(s, yes, newId);
            if s'.open then s'.life.Held? && EarlyTrace(s'.life.pc, s'.trace) else s'.trace == []
  {
    if s.life.pc.Fail? {
      FailTraceMoves(s, yes, newId);
    } else if s.life.pc.InitAttr? || s.life.pc.Prepare? {
      PrepareTraceMoves(s, yes, newId);
    } else {
      CreateTraceMoves(s, yes, newId);
    }
  }

  lemma StartDataMoves(d: Shared, op: Op, pc: LifePc, cur: ThreadId)
    requires d.state == Starting && op.Start?
    requires pc.InitAttr? || pc.Prepare? || pc.Create? || pc.Fail? || pc.Publish?
    ensures LifeData(d, op, pc, cur).state in {Idle, Starting}
  {
  }

  lemma EarlyIsNow(s: Sys)
    requires if s.open then s.d.state in {Idle, Starting} && s.life.Held? && EarlyTrace(s.life.pc, s.trace)
             else s.trace == []
    ensures TraceNow(s)
  {
  }

  lemma LifeInStartKeepsTrace(s: Sys, yes: bool, newId: ThreadId)
    requires StateInv(s) && TraceNow(s) && LifeEnabled(s, newId) && InStart(s.life) && !s.life.pc.AwaitReady?
    ensures TraceNow(LifeDo(s, yes, newId))
  {
    StartTraceMoves(s, yes, newId);
    StartDataMoves(s.d, s.life.op, s.life.pc, s.cur);
    EarlyIsNow(LifeDo(s, yes, newId));
  }

  lemma FreshWord(trace: seq<Event>)
    requires trace == [Prepared(true)]
    ensures WorkingWord(trace, [], []) && Body(trace, 0) == [] && StopPart([]) == []
  {
  }

  /** The thread is released: the session starts working with nothing done yet. */
  lemma ReleaseStartsTheWord(s: Sys, s': Sys)
    requires s.trace == [Prepared(true)] && s'.trace == s.trace && WorkTrace(CurPc(s')) == []
    requires s'.life.Free? || s'.life.pc == Callback(Owed)
    requires s'.requesters == map[] && (s'.notified <==> CallingBack(s'.life)) && (s'.notified ==> s'.d.callbacks == 1)
    ensures WorkingTrace(s')
  {
    FreshWord(s'.trace);
    assert StopTraceIs(s', []);
  }

  lemma ReleaseMoves(s: Sys, yes: bool, newId: ThreadId)
    requires Core(s) && LifeEnabled(s, newId) && InStart(s.life) && s.life.pc.AwaitReady?
    ensures var s' := LifeDo(s, yes, newId);
            && s'.trace == s.trace && s'.requesters == map[] && s'.open && CurPc(s') == AwaitRelease
            && (s'.life.Free? || s'.life.pc == Callback(Owed)) && s'.d.state in {Running, Stopping}
            && (s'.notified <==> CallingBack(s'.life)) && (s'.notified ==> s'.d.callbacks == 1)
  {
  }

  lemma ReleaseKeepsTrace(s: Sys, yes: bool, newId: ThreadId)
    requires Inv(s) && LifeEnabled(s, newId) && InStart(s.life) && s.life.pc.AwaitReady?
    ensures TraceNow(LifeDo(s, yes, newId))
  {
    ReleaseMoves(s, yes, newId);
    ReleaseStartsTheWord(s, LifeDo(s, yes, newId));
  }

  lemma LifeMovesQuietly(s: Sys, s': Sys)
    requires TraceNow(s) && s' == s.(life := s'.life, d := s'.d)
    requires s'.d.state == s.d.state && s'.d.callbacks == s.d.callbacks
    requires s.open ==> s.d.state != Idle && s.d.state != Starting
    requires CleanupTrace(s.life) == CleanupTrace(s'.life) && !CallingBack(s.life) && !CallingBack(s'.life)
    ensures TraceNow(s')
  {
    if s.open {
      WorkingStays(s, s');
    }
  }

  lemma LifeEntryKeepsTrace(s: Sys, yes: bool, newId: ThreadId)
    requires StateInv(s) && TraceNow(s) && LifeEnabled(s, newId) && s.life.pc.Enter?
    ensures TraceNow(LifeDo(s, yes, newId))
  {
    LifeMovesQuietly(s, LifeDo(s, yes, newId));
  }

  lemma LifeCheckKeepsTrace(s: Sys, yes: bool, newId: ThreadId)
    requires StateInv(s) && TraceNow(s) && LifeEnabled(s, newId) && s.life.pc.StopCheck?
    ensures TraceNow(LifeDo(s, yes, newId))
  {
    LifeMovesQuietly(s, LifeDo(s, yes, newId));
  }

  lemma LifeJoinKeepsTrace(s: Sys, yes: bool, newId: ThreadId)
    requires StateInv(s) && TraceNow(s) && LifeEnabled(s, newId)
    requires s.life.pc.JoinLook? || s.life.pc.JoinThread? || s.life.pc.JoinAwait?
    ensures TraceNow(LifeDo(s, yes, newId))
  {
    LifeMovesQuietly(s, LifeDo(s, yes, newId));
  }

  lemma LifeClaimKeepsTrace(s: Sys, yes: bool, newId: ThreadId)
    requires StateInv(s) && TraceNow(s) && LifeEnabled(s, newId) && s.life.pc.Begin?
    ensures TraceNow(LifeDo(s, yes, newId))
  {
    if s.d.state != Idle {
      LifeMovesQuietly(s, LifeDo(s, yes, newId));
    }
  }

  /** stop's request, by what it finds. */
  lemma RequestMoves(s: Sys, yes: bool, newId: ThreadId)
    requires LifeEnabled(s, newId) && s.life.pc.RequestStop?
    requires s.d.state == Running ==> s.d.worker != NO_WORKER
    ensures var s' := LifeDo(s, yes, newId);
            && s'.trace == s.trace && s'.open == s.open && s'.threads == s.threads && s'.cur == s.cur
            && s'.requesters == s.requesters && s'.life.Held?
            && (if s.d.state == Running then
                  s'.d.state == Stopping && s'.life.pc == Callback(Owed) && s'.notified
                  && s'.d.callbacks == s.d.callbacks + 1
                else s'.d.state == s.d.state && s'.life.pc == StopCheck && s'.notified == s.notified
                     && s'.d.callbacks == s.d.callbacks)
  {
  }

  lemma LifeRequestKeepsTrace(s: Sys, yes: bool, newId: ThreadId)
    requires Core(s) && TraceNow(s) && LifeEnabled(s, newId) && s.life.pc.RequestStop?
    ensures TraceNow(LifeDo(s, yes, newId))
  {
    var s' := LifeDo(s, yes, newId);
    RequestMoves(s, yes, newId);
    if s.d.state == Running || s.d.state == Stopping || s.d.state == Exited {
      RequestKeepsWord(s, s');
    }
  }

  lemma RequestKeepsWord(s: Sys, s': Sys)
    requires Core(s) && WorkingTrace(s) && s.life.Held? && s.life.pc.RequestStop?
    requires s'.trace == s.trace && s'.threads == s.threads && s'.cur == s.cur && s'.requesters == s.requesters
    requires s'.life.Held? && s.d.state in {Running, Stopping, Exited}
    requires if s.d.state == Running then
               s'.life.pc == Callback(Owed) && s'.notified && s'.d.callbacks == s.d.callbacks + 1
             else s'.life.pc == StopCheck && s'.notified == s.notified && s'.d.callbacks == s.d.callbacks
    ensures WorkingTrace(s')
  {
    if s.d.state == Running {
      assert s.requesters == map[];
    }
    WorkingStays(s, s');
  }

  lemma LifeCallbackKeepsTrace(s: Sys, yes: bool, newId: ThreadId)
    requires Inv(s) && LifeEnabled(s, newId) && CallingBack(s.life)
    ensures TraceNow(LifeDo(s, yes, newId))
  {
    var s' := LifeDo(s, yes, newId);
    match s.life.pc.at
    case Owed => WorkingStops(s, s', StopBegin);
    case Inside => WorkingStops(s, s', StopEnd);
    case Over => WorkingStays(s, s');
  }

  lemma WordEnds(trace: seq<Event>, tail: seq<Event>, work: seq<Event>, e: Event)
    requires WorkingWord(trace, tail, work)
    ensures WorkingWord(trace + [e], tail + [e], work)
    ensures Body(trace + [e], |tail| + 1) == Body(trace, |tail|)
  {
    assert Body(trace + [e], |tail| + 1) == Body(trace, |tail|);
    assert (trace + [e])[|trace| - |tail|..] == tail + [e];
  }

  lemma LifeCleanupKeepsTrace(s: Sys, yes: bool, newId: ThreadId)
    requires Inv(s) && LifeEnabled(s, newId) && s.life.pc.Cleanup?
    ensures TraceNow(LifeDo(s, yes, newId))
  {
    var s' := LifeDo(s, yes, newId);
    var e := if s.life.pc.inside then CleanupEnd else CleanupBegin;
    WordEnds(s.trace, CleanupTrace(s.life), WorkTrace(CurPc(s)), e);
    assert CleanupTrace(s'.life) == CleanupTrace(s.life) + [e];
    assert StopTraceIs(s', StopPart(Body(s.trace, |CleanupTrace(s.life)|)));
  }

  /** The session that joinLocked closes is complete. */
  lemma JoinedSessionComplete(s: Sys)
    requires Inv(s) && LifeAt(s, JoinReset)
    ensures Complete(s.trace)
  {
    AtReset(s);
    JoinedWordComplete(s.trace);
  }

  lemma AtReset(s: Sys)
    requires StateInv(s) && TraceNow(s) && LifeAt(s, JoinReset)
    ensures WorkingWord(s.trace, [CleanupBegin, CleanupEnd], [RunBegin, RunEnd])
    ensures StopPart(Body(s.trace, 2)) in {[], [StopBegin, StopEnd]}
  {
    assert StopTraceIs(s, StopPart(Body(s.trace, 2)));
  }

  lemma JoinedWordComplete(trace: seq<Event>)
    requires WorkingWord(trace, [CleanupBegin, CleanupEnd], [RunBegin, RunEnd])
    requires StopPart(Body(trace, 2)) in {[], [StopBegin, StopEnd]}
    ensures Complete(trace)
  {
  }

  lemma FailSessionComplete(s: Sys, yes: bool, newId: ThreadId)
    requires LifeEnabled(s, newId) && s.life.pc.Fail? && EarlyTrace(s.life.pc, s.trace)
    ensures var l := LifeMove(s, yes, newId).sessions;
            l == s.sessions || (l == s.sessions + [s.trace] && Complete(s.trace))
  {
  }

  lemma CleanedUpWord(trace: seq<Event>)
    requires trace == [Prepared(true), CleanupBegin]
    ensures Complete(trace + [CleanupEnd])
  {
    assert trace + [CleanupEnd] == [Prepared(true), CleanupBegin, CleanupEnd];
  }

  lemma FailCleanupSessionComplete(s: Sys, yes: bool, newId: ThreadId)
    requires LifeEnabled(s, newId) && s.life.pc.FailCleanup? && EarlyTrace(s.life.pc, s.trace)
    ensures var l, w := LifeMove(s, yes, newId).sessions, s.trace + [CleanupEnd];
            l == s.sessions || (l == s.sessions + [w] && Complete(w))
  {
    if s.life.pc.inside {
      CleanedUpWord(s.trace);
    }
  }

  lemma FailingIsEarly(s: Sys)
    requires StateInv(s) && TraceNow(s) && s.life.Held? && (s.life.pc.Fail? || s.life.pc.FailCleanup?)
    ensures EarlyTrace(s.life.pc, s.trace)
  {
  }

  lemma LifeSessionsComplete(s: Sys, yes: bool, newId: ThreadId)
    requires Inv(s) && LifeEnabled(s, newId)
    ensures var l := LifeMove(s, yes, newId).sessions;
            l == s.sessions || exists w :: l == s.sessions + [w] && Complete(w)
  {
    if s.life.pc.JoinReset? {
      JoinedSessionComplete(s);
    } else if s.life.pc.Fail? {
      FailingIsEarly(s);
      FailSessionComplete(s, yes, newId);
    } else if s.life.pc.FailCleanup? {
      FailingIsEarly(s);
      FailCleanupSessionComplete(s, yes, newId);
    }
  }

  lemma OthersLeaveSessions(s: Sys, a: Act)
    requires Enabled(s, a) && !a.LifeStep?
    ensures Do(s, a).sessions == s.sessions
  {
  }

  lemma SessionsStayComplete(s: Sys, a: Act)
    requires Inv(s) && Enabled(s, a)
    ensures forall w :: w in Do(s, a).sessions ==> Complete(w)
  {
    if a.LifeStep? {
      LifeSessionsComplete(s, a.yes, a.newId);
      OneMoreComplete(s.sessions, LifeMove(s, a.yes, a.newId).sessions);
    } else {
      OthersLeaveSessions(s, a);
    }
  }

  lemma OneMoreComplete(l: seq<seq<Event>>, l': seq<seq<Event>>)
    requires forall w :: w in l ==> Complete(w)
    requires l' == l || exists w :: l' == l + [w] && Complete(w)
    ensures forall w :: w in l' ==> Complete(w)
  {
  }

  lemma LifeKeepsTrace(s: Sys, yes: bool, newId: ThreadId)
    requires Inv(s) && LifeEnabled(s, newId)
    ensures TraceNow(LifeDo(s, yes, newId))
  {
    match s.life.pc
    case Begin => LifeClaimKeepsTrace(s, yes, newId);
    case RequestStop => LifeRequestKeepsTrace(s, yes, newId);
    case Callback(_) => LifeCallbackKeepsTrace(s, yes, newId);
    case Cleanup(_) => LifeCleanupKeepsTrace(s, yes, newId);
    case AwaitReady => ReleaseKeepsTrace(s, yes, newId);
    case Enter => LifeEntryKeepsTrace(s, yes, newId);
    case StopCheck => LifeCheckKeepsTrace(s, yes, newId);
    case JoinLook => LifeJoinKeepsTrace(s, yes, newId);
    case JoinThread(_) => LifeJoinKeepsTrace(s, yes, newId);
    case JoinAwait => LifeJoinKeepsTrace(s, yes, newId);
    case JoinReset =>
    case FailCleanup(_) =>
    case _ => LifeInStartKeepsTrace(s, yes, newId);
  }

  lemma StepKeepsInv(s: Sys, a: Act)
    requires Inv(s) && Enabled(s, a)
    ensures Inv(Do(s, a))
  {
    StepKeepsCore(s, a);
    SessionsStayComplete(s, a);
    match a
    case Call(_, _) => CallKeepsTrace(s, a);
    case StartFromRun(_, _) => CallKeepsTrace(s, a);
    case LifeStep(yes, newId) => LifeKeepsTrace(s, yes, newId);
    case RequestBy(_) => RequestKeepsTrace(s, a);
    case RequesterStep(who) => RequesterKeepsTrace(s, who);
    case ThreadStep(t, yes) => ThreadKeepsTrace(s, t, yes);
  }
}
