/** Timer and MainLoop as one step system: the loop thread, any number of timers, any number of
  * controller threads, posters and terminators.
  *
  * A step is one atomic access, one critical section or one system call. Every program counter names
  * the access that comes NEXT. Waiting on `mStateChanged` is a wait that may end at any time, so a
  * broadcast changes no state; only the broadcast after a final state store keeps a counter of its
  * own, because there the loop still holds the timer's address. */
module TimerProtocol {
  import opened TimerOrder

  type Thread = nat
  type TaskId = nat

  const INFINITE: nat := 0xFFFF_FFFF       // Timer::Infinite
  const NEVER: nat := 0xFFFF_FFFF_FFFF_FFFF // the expiry of a timer never started
  const WAIT_TIME_MS: nat := 10_000        // MainLoop::WaitTimeMs
  const MAX_FUNCTIONS: nat := 128          // MainLoop::kMaxFunctionSize
  const PIPE_CAPACITY: nat := 65536        // any positive bound serves

  datatype TimerState = Stopped | Queued | Executing | RequeuePending

  datatype Op = Start(msec: nat, repeating: bool) | Stop | Destroy

  /** Where the holder of a timer's `mControlLock` is. */
  datatype CtlPc =
    | Load          // load mState
    | Cas           // saw Queued: compare_exchange Queued -> Stopped
    | FlagStop      // exchange succeeded: store mStopRequested = true
    | Unlist        // removeTimer, the section under mTimerLock
    | UnlistWake    // removeTimer, wakeup()
    | UnlistSignal  // mStateChanged.broadcast()
    | RequestStop   // saw Executing or RequeuePending: store mStopRequested = true
    | Await         // stopAndWait: wait until the state is neither of the two
    | Finished      // stop() or stopAndWait() returns
    | ClearStop     // start: store mStopRequested = false
    | StoreQueued   // start: store mState = Queued
    | List          // addTimer, the section under mTimerLock
    | ListWake      // addTimer, wakeup()

  /** `mControlLock` of one timer with its holder's operation and position. */
  datatype Control = Free | Held(owner: Thread, op: Op, pc: CtlPc) | Destroyed

  datatype Timer = Timer(
    state: TimerState, stopRequested: bool, expiry: nat,
    interval: nat, repeating: bool, hasHandler: bool,
    control: Control,
    stamp: nat)  // history: the number of insertions into the list before this timer's latest one

  datatype Command = Wakeup | Terminate

  datatype LoopPc =
    | GetFunction(ranOne: bool)   // runFunctions: the section under mFunctionLock
    | RunFunction(f: TaskId)      // runFunctions: the call
    | Take                        // takeExpiredTimerLocked: read clock and front expiry
    | TakeCas(t: TimerId)         // tryBeginExecuteFromLoop: compare_exchange, mTimerLock held
    | TakeReset(t: TimerId)       //   store mStopRequested = false, mTimerLock held
    | TakePop(t: TimerId, ok: bool) // pop_front and release mTimerLock
    | ReadHandler(t: TimerId)     // executeFromLoop: read mHandler
    | Callback(t: TimerId)        //   inside onTimerExpired
    | ReadConfig(t: TimerId, keep: bool)
    | CheckStop(t: TimerId, keep: bool, interval: nat) // load mStopRequested
    | EndStopped(t: TimerId)      //   store mState = Stopped
    | Rearm(t: TimerId, interval: nat) // store mExpiry
    | StorePending(t: TimerId)    //   store mState = RequeuePending
    | RqLoad(t: TimerId)          // requeueFromLoop: load mState
    | RqCheck(t: TimerId)         //   load mStopRequested
    | RqList(t: TimerId)          //   addTimer, the section
    | RqListWake(t: TimerId)      //   addTimer, wakeup()
    | RqRecheck(t: TimerId)       //   load mStopRequested again
    | RqUnlist(t: TimerId)        //   removeTimer, the section
    | RqUnlistWake(t: TimerId)    //   removeTimer, wakeup()
    | RqStopped(t: TimerId)       //   store mState = Stopped
    | RqQueued(t: TimerId)        //   store mState = Queued
    | Signal(t: TimerId)          // the broadcast after a final store
    | Timeout                     // getNextTimerTimeout
    | Epoll(wait: nat, at: nat)   // inside epoll_wait, timeout computed at clock value `at`
    | Drain(sawTerminate: bool)   // drainCommandPipe
    | CheckTerminated(sawTerminate: bool)
    | Exited

  datatype Poster = NoPoster | Waking(who: Thread)  // holder of mFunctionLock between put and wakeup

  datatype Sys = Sys(
    timers: map<TimerId, Timer>,
    list: seq<TimerId>,
    inserts: nat,               // history: insertions into `list` so far
    loop: LoopPc,
    now: nat,
    pipe: seq<Command>,
    poster: Poster,
    functions: seq<TaskId>,
    accepted: seq<TaskId>,      // history: tasks `post` put into the queue
    ran: seq<TaskId>,           // history: tasks whose call has completed
    terminated: bool,
    terminators: set<Thread>)   // between the store and the write of terminate()

  /** What the environment decides in one step: a clock reading, one bit, one more bit. */
  datatype Choice = Choice(clock: nat, yes: bool, other: bool)

  datatype Act =
    | Create(t: TimerId)
    | Acquire(t: TimerId, who: Thread, op: Op)
    | Ctl(t: TimerId, c: Choice)
    | Configure(t: TimerId, interval: nat, repeating: bool, hasHandler: bool)
    | Loop(c: Choice)
    | Tick
    | Post(who: Thread, f: TaskId)
    | PostWake
    | TerminateStore(who: Thread)
    | TerminateSend(who: Thread)

  // ---------------------------------------------------------------- steps

  predicate TimerLockFree(l: LoopPc) {
    !l.TakeCas? && !l.TakeReset? && !l.TakePop?
  }

  /** `sendCommand`: a full pipe drops the byte. */
  function Send(pipe: seq<Command>, c: Command): (r: seq<Command>)
    ensures r != [] && pipe <= r
    ensures |pipe| < PIPE_CAPACITY ==> |r| == |pipe| + 1 && r[|pipe|] == c
  {
    if |pipe| < PIPE_CAPACITY then pipe + [c] else pipe
  }

  /** The expiries by which the listed timers are sorted. */
  function KeysOf(list: seq<TimerId>, timers: map<TimerId, Timer>): (r: seq<nat>)
    requires forall t :: t in list ==> t in timers
    ensures |r| == |list| && forall i :: 0 <= i < |r| ==> r[i] == timers[list[i]].expiry
  {
    seq(|list|, i requires 0 <= i < |list| => timers[list[i]].expiry)
  }

  function Keys(s: Sys): seq<nat>
    requires forall t :: t in s.list ==> t in s.timers
  {
    KeysOf(s.list, s.timers)
  }

  predicate Closed(s: Sys) {
    && (forall t :: t in s.list ==> t in s.timers)
    && (LoopTimer(s.loop) >= 0 ==> LoopTimer(s.loop) in s.timers)
  }

  /** The timer whose address the loop thread holds, or -1. */
  function LoopTimer(l: LoopPc): int {
    match l
    case TakeCas(t) => t
    case TakeReset(t) => t
    case TakePop(t, _) => t
    case ReadHandler(t) => t
    case Callback(t) => t
    case ReadConfig(t, _) => t
    case CheckStop(t, _, _) => t
    case EndStopped(t) => t
    case Rearm(t, _) => t
    case StorePending(t) => t
    case RqLoad(t) => t
    case RqCheck(t) => t
    case RqList(t) => t
    case RqListWake(t) => t
    case RqRecheck(t) => t
    case RqUnlist(t) => t
    case RqUnlistWake(t) => t
    case RqStopped(t) => t
    case RqQueued(t) => t
    case Signal(t) => t
    case _ => -1
  }

  /** `insertTimerLocked`, with its branch for a timer that is already listed. */
  function Insert(s: Sys, t: TimerId): Sys
    requires Closed(s) && t in s.timers
  {
    if t in s.list then s
    else
      s.(list := InsertAt(s.list, InsertPos(Keys(s), s.timers[t].expiry), t),
         inserts := s.inserts + 1,
         timers := s.timers[t := s.timers[t].(stamp := s.inserts)])
  }

  function SetTimer(s: Sys, t: TimerId, r: Timer): Sys {
    s.(timers := s.timers[t := r])
  }

  function At(r: Timer, pc: CtlPc): Timer
    requires r.control.Held?
  {
    r.(control := r.control.(pc := pc))
  }

  predicate CtlEnabled(s: Sys, t: TimerId, c: Choice)
    requires Closed(s)
  {
    t in s.timers && s.timers[t].control.Held? &&
    match s.timers[t].control.pc
    case Unlist => TimerLockFree(s.loop)
    case List => TimerLockFree(s.loop)
    case Await => s.timers[t].state != Executing && s.timers[t].state != RequeuePending
    case Finished => c.clock <= s.now
    case _ => true
  }

  /** What one step of the thread that holds the timer's control lock, in stop, stopAndWait or start,
    * writes into the timer. `c.yes` is the spurious failure `compare_exchange_weak` is allowed. */
  function CtlRecord(r: Timer, c: Choice): Timer
    requires r.control.Held?
  {
    match r.control.pc
    case Load =>
      At(r, match r.state
            case Stopped => Finished
            case Queued => Cas
            case _ => RequestStop)
    case Cas => if r.state == Queued && !c.yes then At(r, FlagStop).(state := Stopped) else At(r, Load)
    case FlagStop => At(r, Unlist).(stopRequested := true)
    case Unlist => At(r, UnlistWake)
    case UnlistWake => At(r, UnlistSignal)
    case UnlistSignal => At(r, Finished)
    case RequestStop =>
      if r.control.op.Stop? then r.(stopRequested := true, control := Free)
      else At(r, Await).(stopRequested := true)
    case Await => At(r, Load)
    case Finished =>
      (match r.control.op
       case Stop => r.(control := Free)
       case Destroy => r.(control := Destroyed)
       case Start(msec, repeating) =>
         if msec == INFINITE then r.(control := Free)
         else At(r, ClearStop).(interval := msec, repeating := repeating, expiry := c.clock + msec))
    case ClearStop => At(r, StoreQueued).(stopRequested := false)
    case StoreQueued => At(r, List).(state := Queued)
    case List => At(r, ListWake)
    case ListWake => r.(control := Free)
  }

  /** One step of that thread: the write above, and the list and pipe operations. */
  function CtlStep(s: Sys, t: TimerId, c: Choice): Sys
    requires Closed(s) && CtlEnabled(s, t, c)
  {
    var s' := SetTimer(s, t, CtlRecord(s.timers[t], c));
    match s.timers[t].control.pc
    case Unlist => s'.(list := Erase(s.list, t))
    case UnlistWake => s'.(pipe := Send(s.pipe, Wakeup))
    case List => Insert(s', t)
    case ListWake => s'.(pipe := Send(s.pipe, Wakeup))
    case _ => s'
  }

  /** `getNextTimerTimeoutLocked`, the list given by its front expiry. */
  function NextTimeout(s: Sys, now: nat): nat
    requires Closed(s)
  {
    if s.list == [] then WAIT_TIME_MS
    else
      var expiry := s.timers[s.list[0]].expiry;
      if expiry <= now then 0
      else if expiry - now > WAIT_TIME_MS then WAIT_TIME_MS
      else expiry - now
  }

  predicate LoopEnabled(s: Sys, c: Choice)
    requires Closed(s)
  {
    match s.loop
    case GetFunction(_) => s.poster.NoPoster?
    case Take => c.clock <= s.now
    case Rearm(_, _) => c.clock <= s.now
    case Timeout => c.clock <= s.now
    case TakePop(_, _) => s.list != []
    case Epoll(_, _) => c.yes ==> s.pipe != []
    case Exited => false
    case _ => true
  }

  /** What one step of the loop thread writes into the timer it holds. */
  function LoopRecord(l: LoopPc, r: Timer, c: Choice): Timer {
    match l
    case TakeCas(_) => if r.state == Queued then r.(state := Executing) else r
    case TakeReset(_) => r.(stopRequested := false)
    case EndStopped(_) => r.(state := Stopped)
    case Rearm(_, interval) => r.(expiry := c.clock + interval)
    case StorePending(_) => r.(state := RequeuePending)
    case RqStopped(_) => r.(state := Stopped)
    case RqQueued(_) => r.(state := Queued)
    case _ => r
  }

  /** Where the loop thread goes next while it holds a timer, `r` being that timer before the step. */
  function HoldingNext(l: LoopPc, r: Timer, c: Choice): LoopPc
    requires LoopTimer(l) >= 0
  {
    match l
    case TakeCas(t) => if r.state == Queued then TakeReset(t) else TakePop(t, false)
    case TakeReset(t) => TakePop(t, true)
    case TakePop(t, ok) => if ok then ReadHandler(t) else Timeout
    case ReadHandler(t) => if r.hasHandler then Callback(t) else ReadConfig(t, false)
    case Callback(t) => ReadConfig(t, c.yes)
    case ReadConfig(t, keep) =>
      CheckStop(t, keep && r.repeating && r.interval != INFINITE && r.hasHandler, r.interval)
    case CheckStop(t, keep, interval) => if !r.stopRequested && keep then Rearm(t, interval) else EndStopped(t)
    case EndStopped(t) => Signal(t)
    case Rearm(t, _) => StorePending(t)
    case StorePending(t) => RqLoad(t)
    case RqLoad(t) => if r.state != RequeuePending then Signal(t) else RqCheck(t)
    case RqCheck(t) => if r.stopRequested then RqStopped(t) else RqList(t)
    case RqList(t) => RqListWake(t)
    case RqListWake(t) => RqRecheck(t)
    case RqRecheck(t) => if r.stopRequested then RqUnlist(t) else RqQueued(t)
    case RqUnlist(t) => RqUnlistWake(t)
    case RqUnlistWake(t) => RqStopped(t)
    case RqStopped(t) => Signal(t)
    case RqQueued(t) => Signal(t)
    case Signal(_) => Timeout
  }

  /** A loop step on the timer it holds: the write, the move, and the list and pipe operations. */
  function HoldingStep(s: Sys, c: Choice): Sys
    requires Closed(s) && LoopTimer(s.loop) >= 0 && (s.loop.TakePop? ==> s.list != [])
  {
    var t: TimerId := LoopTimer(s.loop);
    var r := s.timers[t];
    var s' := SetTimer(s, t, LoopRecord(s.loop, r, c)).(loop := HoldingNext(s.loop, r, c));
    match s.loop
    case TakePop(_, _) => s'.(list := s.list[1..])
    case RqList(_) => Insert(s', t)
    case RqListWake(_) => s'.(pipe := Send(s.pipe, Wakeup))
    case RqUnlist(_) => s'.(list := Erase(s.list, t))
    case RqUnlistWake(_) => s'.(pipe := Send(s.pipe, Wakeup))
    case _ => s'
  }

  /** One step of the loop thread. */
  function LoopStep(s: Sys, c: Choice): Sys
    requires Closed(s) && LoopEnabled(s, c)
  {
    if LoopTimer(s.loop) >= 0 then HoldingStep(s, c)
    else
    match s.loop
    case GetFunction(ranOne) =>
      if s.functions != [] then s.(loop := RunFunction(s.functions[0]), functions := s.functions[1..])
      else if ranOne then s.(loop := GetFunction(false))
      else s.(loop := Take)
    case RunFunction(f) => s.(loop := GetFunction(true), ran := s.ran + [f])
    case Take =>
      if s.list == [] || s.timers[s.list[0]].expiry > c.clock then s.(loop := Timeout)
      else s.(loop := TakeCas(s.list[0]))
    case Timeout =>
      var wait := NextTimeout(s, c.clock);
      s.(loop := if wait == 0 then Take else Epoll(wait, c.clock))
    case Epoll(_, _) =>
      // c.yes: the pipe is reported readable; else a timeout, a signal, another descriptor
      // or, with c.other, an error that ends the loop
      s.(loop := if c.yes then Drain(false) else if c.other then Exited else GetFunction(false))
    case Drain(sawTerminate) =>
      if s.pipe == [] then s.(loop := CheckTerminated(sawTerminate))
      else s.(loop := Drain(sawTerminate || s.pipe[0] == Terminate), pipe := s.pipe[1..])
    case CheckTerminated(sawTerminate) =>
      s.(loop := if sawTerminate || s.terminated then Exited else GetFunction(false))
    case _ => s
  }

  const FRESH_TIMER := Timer(Stopped, false, NEVER, INFINITE, false, false, Free, 0)

  predicate Enabled(s: Sys, a: Act)
    requires Closed(s)
  {
    match a
    case Create(t) => t !in s.timers
    case Acquire(t, _, _) => t in s.timers && s.timers[t].control.Free?
    case Ctl(t, c) => CtlEnabled(s, t, c)
    case Configure(t, _, _, _) => t in s.timers && !s.timers[t].control.Destroyed?
    case Loop(c) => LoopEnabled(s, c)
    case Tick => true
    case Post(_, _) => s.poster.NoPoster?
    case PostWake => s.poster.Waking?
    case TerminateStore(who) => who !in s.terminators
    case TerminateSend(who) => who in s.terminators
  }

  function Do(s: Sys, a: Act): Sys
    requires Closed(s) && Enabled(s, a)
  {
    match a
    case Create(t) => SetTimer(s, t, FRESH_TIMER)
    case Acquire(t, who, op) => SetTimer(s, t, s.timers[t].(control := Held(who, op, Load)))
    case Ctl(t, c) => CtlStep(s, t, c)
    case Configure(t, interval, repeating, hasHandler) =>
      SetTimer(s, t, s.timers[t].(interval := interval, repeating := repeating, hasHandler := hasHandler))
    case Loop(c) => LoopStep(s, c)
    case Tick => s.(now := s.now + 1)
    case Post(who, f) =>
      if |s.functions| < MAX_FUNCTIONS
      then s.(functions := s.functions + [f], accepted := s.accepted + [f], poster := Waking(who))
      else s
    case PostWake => s.(poster := NoPoster, pipe := Send(s.pipe, Wakeup))
    case TerminateStore(who) => s.(terminated := true, terminators := s.terminators + {who})
    case TerminateSend(who) => s.(terminators := s.terminators - {who}, pipe := Send(s.pipe, Terminate))
  }

  const INITIAL := Sys(map[], [], 0, GetFunction(false), 0, [], NoPoster, [], [], [], false, {})

  /** `run` is the sequence of states that the actions `acts` lead through from the initial state. */
  ghost predicate IsRun(run: seq<Sys>, acts: seq<Act>) {
    && |run| == |acts| + 1
    && run[0] == INITIAL
    && forall i :: 0 <= i < |acts| ==>
         Closed(run[i]) && Enabled(run[i], acts[i]) && run[i + 1] == Do(run[i], acts[i])
  }

  // ---------------------------------------------------------------- the invariant

  /** What the loop thread is doing with the timer it holds. */
  datatype Grip =
    | Away             // nothing, or only the broadcast after a final store
    | Peeking          // read as expired at the front of the list
    | Refused          // exchange failed, not yet popped
    | Beginning        // exchange succeeded, not yet popped
    | Running          // on the execute path, off the list
    | Requeueing       // on the requeue path, off the list
    | Requeued         // on the requeue path, on the list

  function LoopGrip(l: LoopPc): Grip {
    match l
    case TakeCas(_) => Peeking
    case TakeReset(_) => Beginning
    case TakePop(_, ok) => if ok then Beginning else Refused
    case ReadHandler(_) => Running
    case Callback(_) => Running
    case ReadConfig(_, _) => Running
    case CheckStop(_, _, _) => Running
    case EndStopped(_) => Running
    case Rearm(_, _) => Running
    case StorePending(_) => Running
    case RqLoad(_) => Requeueing
    case RqCheck(_) => Requeueing
    case RqList(_) => Requeueing
    case RqListWake(_) => Requeued
    case RqRecheck(_) => Requeued
    case RqUnlist(_) => Requeued
    case RqUnlistWake(_) => Requeueing
    case RqStopped(_) => Requeueing
    case RqQueued(_) => Requeued
    case _ => Away
  }

  function GripOn(l: LoopPc, t: TimerId): Grip {
    if LoopTimer(l) == t then LoopGrip(l) else Away
  }

  predicate CtlAt(r: Timer, pc: CtlPc) {
    r.control.Held? && r.control.pc == pc
  }

  /** Positions of a controller that say nothing about the timer's state. */
  predicate Watching(r: Timer) {
    r.control.Free? || (r.control.Held? && r.control.pc in {Load, Cas, RequestStop, Await, ListWake})
  }

  /** State, list membership, loop position and controller agree. */
  predicate Fits(r: Timer, listed: bool, g: Grip) {
    match r.state
    case Stopped =>
      && g in {Away, Peeking, Refused}
      && (listed ==> CtlAt(r, FlagStop) || CtlAt(r, Unlist))
      && (g != Away ==> listed)
      && !CtlAt(r, List)
    case Queued =>
      && g in {Away, Peeking}
      && (g != Away ==> listed)
      && (listed <==> !CtlAt(r, List))
      && (Watching(r) || CtlAt(r, List))
    case Executing =>
      && g in {Beginning, Running}
      && (listed <==> g == Beginning)
      && Watching(r)
    case RequeuePending =>
      && g in {Requeueing, Requeued}
      && (listed <==> g == Requeued)
      && Watching(r)
  }

  ghost predicate Placed(s: Sys, t: TimerId)
    requires t in s.timers
  {
    Fits(s.timers[t], t in s.list, GripOn(s.loop, t))
  }

  /** Earlier expiry, or equal expiry and earlier insertion. */
  predicate Before(a: Timer, b: Timer) {
    a.expiry < b.expiry || (a.expiry == b.expiry && a.stamp < b.stamp)
  }

  ghost predicate Sorted(s: Sys)
    requires Closed(s)
  {
    && (forall i, j :: 0 <= i < j < |s.list| ==> Before(s.timers[s.list[i]], s.timers[s.list[j]]))
    && (forall t :: t in s.list ==> s.timers[t].stamp < s.inserts)
  }

  /** While the loop holds mTimerLock for a timer, that timer is the front of the list. */
  predicate LockedFront(s: Sys) {
    TimerLockFree(s.loop) || (s.list != [] && s.list[0] == s.loop.t)
  }

  ghost predicate TimersInv(s: Sys) {
    && Closed(s)
    && Sorted(s)
    && LockedFront(s)
    && (forall t :: t in s.timers ==> Placed(s, t))
  }

  // ---------------------------------------------------------------- preservation

  /** The key a timer is sorted by may change only while the timer is off the list. */
  predicate KeyKept(r: Timer, r': Timer, listed: bool) {
    r'.stamp == r.stamp && (listed ==> r'.expiry == r.expiry)
  }

  /** One controller step keeps `Fits`, whatever the list step does to membership. */
  lemma CtlFits(r: Timer, listed: bool, g: Grip, c: Choice)
    requires r.control.Held? && Fits(r, listed, g)
    requires r.control.pc.Await? ==> r.state != Executing && r.state != RequeuePending
    requires r.control.pc in {Unlist, List} ==> g in {Away, Running, Requeueing, Requeued}
    ensures Fits(CtlRecord(r, c), if r.control.pc.Unlist? then false else listed || r.control.pc.List?, g)
    ensures KeyKept(r, CtlRecord(r, c), listed)
    ensures r.control.pc.List? ==> !listed
  {
  }

  /** One loop step on the timer it holds keeps `Fits` likewise. */
  lemma LoopFits(l: LoopPc, r: Timer, listed: bool, c: Choice)
    requires LoopTimer(l) >= 0 && Fits(r, listed, LoopGrip(l))
    ensures var listed' := if l.TakePop? || l.RqUnlist? then false else listed || l.RqList?;
            Fits(LoopRecord(l, r, c), listed', LoopGrip(HoldingNext(l, r, c)))
    ensures KeyKept(r, LoopRecord(l, r, c), listed)
    ensures l.RqList? ==> !listed
    ensures OnlyAbout(HoldingNext(l, r, c), LoopTimer(l))
  {
  }

  /** The keys by which the listed timers are sorted are not touched. */
  predicate SameKeys(s: Sys, s': Sys) {
    && s'.timers.Keys == s.timers.Keys
    && forall u :: u in s.timers && u in s.list ==>
         s'.timers[u].expiry == s.timers[u].expiry && s'.timers[u].stamp == s.timers[u].stamp
  }

  /** Any two places of the list after a removal. */
  lemma ErasedInOrder(s: Sys, s': Sys, t: TimerId, i: nat, j: nat)
    requires Closed(s) && Sorted(s) && SameKeys(s, s') && s'.list == Erase(s.list, t) && i < j < |s'.list|
    ensures s'.list[i] in s'.timers && s'.list[j] in s'.timers
    ensures Before(s'.timers[s'.list[i]], s'.timers[s'.list[j]])
  {
    var p := IndexOf(s.list, t);
    var i0, j0 := if i < p then i else i + 1, if j < p then j else j + 1;
    assert s'.list[i] == s.list[i0] && s'.list[j] == s.list[j0];
    assert Before(s.timers[s.list[i0]], s.timers[s.list[j0]]);
  }

  lemma EraseKeepsSorted(s: Sys, s': Sys, t: TimerId)
    requires Closed(s) && Sorted(s) && SameKeys(s, s')
    requires s'.list == Erase(s.list, t) && s'.inserts == s.inserts
    requires LoopTimer(s'.loop) >= 0 ==> LoopTimer(s'.loop) in s'.timers
    ensures Closed(s') && Sorted(s') && t !in s'.list
  {
    EraseDistinct(s.list, t);
    forall u | u in s'.list ensures u in s.list {
    }
    forall i, j | 0 <= i < j < |s'.list| ensures Before(s'.timers[s'.list[i]], s'.timers[s'.list[j]]) {
      ErasedInOrder(s, s', t, i, j);
    }
  }

  /** Any two places of the list after an insertion. */
  lemma InsertedInOrder(s: Sys, t: TimerId, i: nat, j: nat)
    requires Closed(s) && Sorted(s) && t in s.timers && t !in s.list && i < j < |Insert(s, t).list|
    ensures var s' := Insert(s, t);
            && s'.list[i] in s'.timers && s'.list[j] in s'.timers
            && Before(s'.timers[s'.list[i]], s'.timers[s'.list[j]])
  {
    var p := InsertPos(Keys(s), s.timers[t].expiry);
    var s' := Insert(s, t);
    if i != p && j != p {
      var i0, j0 := if i < p then i else i - 1, if j < p then j else j - 1;
      assert s'.list[i] == s.list[i0] && s'.list[j] == s.list[j0];
    } else if i == p {
      assert s'.list[j] == s.list[j - 1];
      assert p == j - 1 || Before(s.timers[s.list[p]], s.timers[s.list[j - 1]]);
    } else {
      assert s'.list[i] == s.list[i];
    }
  }

  lemma InsertKeepsSorted(s: Sys, t: TimerId)
    requires Closed(s) && Sorted(s) && t in s.timers && t !in s.list
    ensures Closed(Insert(s, t)) && Sorted(Insert(s, t))
  {
    var s' := Insert(s, t);
    forall i, j | 0 <= i < j < |s'.list| ensures Before(s'.timers[s'.list[i]], s'.timers[s'.list[j]]) {
      InsertedInOrder(s, t, i, j);
    }
  }

  predicate OnlyAbout(l: LoopPc, t: TimerId) {
    LoopTimer(l) == -1 || LoopTimer(l) == t
  }

  /** A step about timer `t` alone leaves every other timer where it was. */
  lemma OthersStayPlaced(s: Sys, s': Sys, t: TimerId)
    requires forall u :: u in s.timers ==> Placed(s, u)
    requires s'.timers.Keys == s.timers.Keys && t in s.timers
    requires forall u :: u in s.timers && u != t ==> s'.timers[u] == s.timers[u]
    requires forall u :: u != t ==> (u in s'.list <==> u in s.list)
    requires s'.loop == s.loop || (OnlyAbout(s.loop, t) && OnlyAbout(s'.loop, t))
    requires Placed(s', t)
    ensures forall u :: u in s'.timers ==> Placed(s', u)
  {
    forall u | u in s'.timers ensures Placed(s', u) {
      assert Placed(s, u);
    }
  }

  /** Timer `t` rewritten to `r` and the loop moved to `l`, the list as before. */
  lemma RewriteKeepsTimers(s: Sys, t: TimerId, r: Timer, l: LoopPc)
    requires TimersInv(s) && t in s.timers
    requires KeyKept(s.timers[t], r, t in s.list)
    requires l == s.loop || (OnlyAbout(s.loop, t) && OnlyAbout(l, t))
    requires Fits(r, t in s.list, GripOn(l, t))
    requires LockedFront(s.(loop := l))
    ensures TimersInv(SetTimer(s, t, r).(loop := l))
  {
    OthersStayPlaced(s, SetTimer(s, t, r).(loop := l), t);
  }

  lemma EraseKeepsTimers(s: Sys, t: TimerId, r: Timer, l: LoopPc)
    requires TimersInv(s) && t in s.timers
    requires KeyKept(s.timers[t], r, true)
    requires l == s.loop || (OnlyAbout(s.loop, t) && OnlyAbout(l, t))
    requires TimerLockFree(l)
    requires Fits(r, false, GripOn(l, t))
    ensures TimersInv(SetTimer(s, t, r).(loop := l, list := Erase(s.list, t)))
  {
    var s' := SetTimer(s, t, r).(loop := l, list := Erase(s.list, t));
    EraseKeepsSorted(s, s', t);
    OthersStayPlaced(s, s', t);
  }

  /** Rewriting a timer that is off the list, and moving the loop, leave the list sorted. */
  lemma OffListKeepsSorted(s: Sys, t: TimerId, r: Timer, l: LoopPc)
    requires Closed(s) && Sorted(s) && t in s.timers && t !in s.list
    requires l == s.loop || OnlyAbout(l, t)
    ensures Closed(SetTimer(s, t, r).(loop := l)) && Sorted(SetTimer(s, t, r).(loop := l))
  {
  }

  lemma InsertKeepsTimers(s: Sys, t: TimerId, r: Timer, l: LoopPc)
    requires TimersInv(s) && t in s.timers && t !in s.list
    requires l == s.loop || (OnlyAbout(s.loop, t) && OnlyAbout(l, t))
    requires TimerLockFree(l)
    requires Fits(r, true, GripOn(l, t))
    ensures Closed(SetTimer(s, t, r).(loop := l)) && TimersInv(Insert(SetTimer(s, t, r).(loop := l), t))
  {
    var m := SetTimer(s, t, r).(loop := l);
    OffListKeepsSorted(s, t, r, l);
    InsertKeepsSorted(m, t);
    InsertTouchesOne(s, t, r, l);
    OthersStayPlaced(s, Insert(m, t), t);
  }

  lemma InsertTouchesOne(s: Sys, t: TimerId, r: Timer, l: LoopPc)
    requires Closed(s) && t in s.timers && t !in s.list && Closed(SetTimer(s, t, r).(loop := l))
    requires Fits(r, true, GripOn(l, t))
    ensures var s' := Insert(SetTimer(s, t, r).(loop := l), t);
            && s'.timers.Keys == s.timers.Keys && s'.loop == l && Placed(s', t)
            && (forall u :: u in s.timers && u != t ==> s'.timers[u] == s.timers[u])
            && (forall u :: u != t ==> (u in s'.list <==> u in s.list))
  {
    assert Insert(SetTimer(s, t, r).(loop := l), t).timers[t] == r.(stamp := s.inserts);
  }

  lemma PopKeepsSorted(s: Sys, s': Sys)
    requires Closed(s) && Sorted(s) && s.list != [] && Closed(s')
    requires s'.timers == s.timers && s'.list == s.list[1..] && s'.inserts == s.inserts
    ensures Sorted(s') && s.list[0] !in s'.list
    ensures forall u :: u != s.list[0] ==> (u in s'.list <==> u in s.list)
  {
    assert s.list == [s.list[0]] + s'.list;
  }

  lemma PopKeepsTimers(s: Sys, t: TimerId, l: LoopPc)
    requires TimersInv(s) && t in s.timers && s.list != [] && s.list[0] == t
    requires OnlyAbout(s.loop, t) && OnlyAbout(l, t) && TimerLockFree(l)
    requires Fits(s.timers[t], false, GripOn(l, t))
    ensures TimersInv(s.(loop := l, list := s.list[1..]))
  {
    var s' := s.(loop := l, list := s.list[1..]);
    PopKeepsSorted(s, s');
    OthersStayPlaced(s, s', t);
  }

  /** The pipe, the queue, the clock and the rest do not matter to the timers. */
  lemma OtherFieldsDoNotMatter(s: Sys, s': Sys)
    requires TimersInv(s)
    requires s'.timers == s.timers && s'.list == s.list && s'.inserts == s.inserts && s'.loop == s.loop
    ensures TimersInv(s')
  {
    forall u | u in s'.timers ensures Placed(s', u) {
      assert Placed(s, u);
    }
  }

  lemma CtlKeepsTimers(s: Sys, t: TimerId, c: Choice)
    requires TimersInv(s) && CtlEnabled(s, t, c)
    ensures TimersInv(CtlStep(s, t, c))
  {
    var r := s.timers[t];
    var r' := CtlRecord(r, c);
    assert Placed(s, t);
    CtlFits(r, t in s.list, GripOn(s.loop, t), c);
    if r.control.pc.Unlist? {
      EraseKeepsTimers(s, t, r', s.loop);
    } else if r.control.pc.List? {
      InsertKeepsTimers(s, t, r', s.loop);
    } else {
      RewriteKeepsTimers(s, t, r', s.loop);
      OtherFieldsDoNotMatter(SetTimer(s, t, r'), CtlStep(s, t, c));
    }
  }

  lemma HoldingKeepsTimersInPlace(s: Sys, c: Choice)
    requires TimersInv(s) && LoopEnabled(s, c) && LoopTimer(s.loop) >= 0
    requires !s.loop.TakePop? && !s.loop.RqUnlist? && !s.loop.RqList?
    ensures TimersInv(HoldingStep(s, c))
  {
    var t: TimerId := LoopTimer(s.loop);
    var r', l := LoopRecord(s.loop, s.timers[t], c), HoldingNext(s.loop, s.timers[t], c);
    assert Placed(s, t);
    LoopFits(s.loop, s.timers[t], t in s.list, c);
    assert LockedFront(s.(loop := l));
    RewriteKeepsTimers(s, t, r', l);
    OtherFieldsDoNotMatter(SetTimer(s, t, r').(loop := l), HoldingStep(s, c));
  }

  lemma PopKeeps(s: Sys, c: Choice)
    requires TimersInv(s) && LoopEnabled(s, c) && s.loop.TakePop?
    ensures TimersInv(HoldingStep(s, c))
  {
    var t := s.loop.t;
    assert Placed(s, t);
    PopKeepsTimers(s, t, HoldingNext(s.loop, s.timers[t], c));
    assert HoldingStep(s, c) == s.(loop := HoldingNext(s.loop, s.timers[t], c), list := s.list[1..]);
  }

  lemma UnlistKeeps(s: Sys, c: Choice)
    requires TimersInv(s) && LoopEnabled(s, c) && s.loop.RqUnlist?
    ensures TimersInv(HoldingStep(s, c))
  {
    var t := s.loop.t;
    assert Placed(s, t);
    EraseKeepsTimers(s, t, s.timers[t], RqUnlistWake(t));
  }

  lemma ListKeeps(s: Sys, c: Choice)
    requires TimersInv(s) && LoopEnabled(s, c) && s.loop.RqList?
    ensures TimersInv(HoldingStep(s, c))
  {
    var t := s.loop.t;
    assert Placed(s, t);
    InsertKeepsTimers(s, t, s.timers[t], RqListWake(t));
  }

  lemma HoldingKeepsTimers(s: Sys, c: Choice)
    requires TimersInv(s) && LoopEnabled(s, c) && LoopTimer(s.loop) >= 0
    ensures TimersInv(HoldingStep(s, c))
  {
    if s.loop.TakePop? {
      PopKeeps(s, c);
    } else if s.loop.RqUnlist? {
      UnlistKeeps(s, c);
    } else if s.loop.RqList? {
      ListKeeps(s, c);
    } else {
      HoldingKeepsTimersInPlace(s, c);
    }
  }

  /** A loop that holds no timer may be anywhere else that holds none. */
  lemma AwayFromTimers(s: Sys, s': Sys)
    requires TimersInv(s) && LoopTimer(s.loop) == -1 && LoopTimer(s'.loop) == -1
    requires s'.timers == s.timers && s'.list == s.list && s'.inserts == s.inserts
    ensures TimersInv(s')
  {
    forall u | u in s'.timers ensures Placed(s', u) {
      assert Placed(s, u);
    }
  }

  lemma LoopElsewhereStaysAway(s: Sys, c: Choice)
    requires Closed(s) && LoopEnabled(s, c) && LoopTimer(s.loop) == -1 && !s.loop.Take?
    ensures var s' := LoopStep(s, c);
            LoopTimer(s'.loop) == -1 && s'.timers == s.timers && s'.list == s.list && s'.inserts == s.inserts
  {
  }

  /** Reading the front timer as expired takes hold of it. */
  lemma TakesHold(s: Sys)
    requires TimersInv(s) && LoopTimer(s.loop) == -1 && s.list != []
    ensures TimersInv(s.(loop := TakeCas(s.list[0])))
  {
    var s' := s.(loop := TakeCas(s.list[0]));
    forall u | u in s'.timers ensures Placed(s', u) {
      assert Placed(s, u);
    }
  }

  /** Loop steps away from any timer, and taking hold of the front one. */
  lemma LoopElsewhereKeepsTimers(s: Sys, c: Choice)
    requires TimersInv(s) && LoopEnabled(s, c) && LoopTimer(s.loop) == -1
    ensures TimersInv(LoopStep(s, c))
  {
    if !s.loop.Take? {
      LoopElsewhereStaysAway(s, c);
      AwayFromTimers(s, LoopStep(s, c));
    } else if s.list == [] || s.timers[s.list[0]].expiry > c.clock {
      AwayFromTimers(s, s.(loop := Timeout));
    } else {
      TakesHold(s);
    }
  }

  lemma StepKeepsTimers(s: Sys, a: Act)
    requires TimersInv(s) && Enabled(s, a)
    ensures TimersInv(Do(s, a))
  {
    match a
    case Ctl(t, c) => CtlKeepsTimers(s, t, c);
    case Acquire(t, _, _) =>
      assert Placed(s, t);
      RewriteKeepsTimers(s, t, Do(s, a).timers[t], s.loop);
    case Configure(t, _, _, _) =>
      assert Placed(s, t);
      RewriteKeepsTimers(s, t, Do(s, a).timers[t], s.loop);
    case Create(t) =>
      forall u | u in Do(s, a).timers ensures Placed(Do(s, a), u) {
        assert u in s.timers ==> Placed(s, u);
      }
    case Loop(c) =>
      if LoopTimer(s.loop) >= 0 {
        HoldingKeepsTimers(s, c);
      } else {
        LoopElsewhereKeepsTimers(s, c);
      }
    case _ => OtherFieldsDoNotMatter(s, Do(s, a));
  }

  // ---------------------------------------------------------------- the view of one timer

  /** All a step can mean to timer `t`: its controller's step, the loop's step on it, or nothing but a
    * new lock holder, other settings, or the loop reading it as the expired front. */
  ghost predicate Effect(s: Sys, a: Act, s': Sys, t: TimerId)
    requires t in s.timers && t in s'.timers
  {
    var r, r' := s.timers[t], s'.timers[t];
    if a.Ctl? && a.t == t then
      && r.control.Held? && s'.loop == s.loop
      && r' == CtlRecord(r, a.c).(stamp := r'.stamp)
      && (t in s'.list <==> r.control.pc.List? || (t in s.list && !r.control.pc.Unlist?))
    else if a.Loop? && LoopTimer(s.loop) == t then
      && s'.loop == HoldingNext(s.loop, r, a.c)
      && r' == LoopRecord(s.loop, r, a.c).(stamp := r'.stamp)
      && (t in s'.list <==> s.loop.RqList? || (t in s.list && !s.loop.TakePop? && !s.loop.RqUnlist?))
    else
      && (t in s'.list <==> t in s.list)
      && r' == r.(control := r'.control, interval := r'.interval, repeating := r'.repeating,
                  hasHandler := r'.hasHandler)
      && (r'.control == r.control || (r.control.Free? && CtlAt(r', Load)))
      && (LoopTimer(s.loop) == t ==> s'.loop == s.loop)
      && (LoopTimer(s'.loop) == t ==> s'.loop == s.loop || (s'.loop == TakeCas(t) && t in s.list))
  }

  lemma SortedIsDistinct(s: Sys)
    requires Closed(s) && Sorted(s)
    ensures Distinct(s.list)
  {
  }

  lemma CtlEffectOnOwn(s: Sys, a: Act)
    requires Closed(s) && Distinct(s.list) && a.Ctl? && Enabled(s, a)
    ensures a.t in Do(s, a).timers && Effect(s, a, Do(s, a), a.t)
  {
    EraseDistinct(s.list, a.t);
  }

  lemma CtlLeavesOthers(s: Sys, a: Act, t: TimerId)
    requires Closed(s) && a.Ctl? && Enabled(s, a) && t in s.timers && t != a.t
    ensures var s' := Do(s, a); t in s'.timers && s'.timers[t] == s.timers[t] && s'.loop == s.loop
    ensures t in Do(s, a).list <==> t in s.list
  {
  }

  lemma CtlEffect(s: Sys, a: Act, t: TimerId)
    requires Closed(s) && Distinct(s.list) && a.Ctl? && Enabled(s, a) && t in s.timers
    ensures t in Do(s, a).timers && Effect(s, a, Do(s, a), t)
  {
    if a.t == t {
      CtlEffectOnOwn(s, a);
    } else {
      CtlLeavesOthers(s, a, t);
    }
  }

  lemma HoldingEffectOnOwn(s: Sys, a: Act)
    requires Closed(s) && Distinct(s.list) && LockedFront(s)
    requires a.Loop? && Enabled(s, a) && LoopTimer(s.loop) >= 0
    ensures var t: TimerId := LoopTimer(s.loop); t in Do(s, a).timers && Effect(s, a, Do(s, a), t)
  {
    var t: TimerId := LoopTimer(s.loop);
    EraseDistinct(s.list, t);
    if s.loop.TakePop? {
      assert s.list == [t] + s.list[1..];
    }
  }

  lemma HoldingLeavesOthers(s: Sys, c: Choice, t: TimerId)
    requires Closed(s) && LockedFront(s) && t in s.timers
    requires LoopEnabled(s, c) && LoopTimer(s.loop) >= 0 && LoopTimer(s.loop) != t
    ensures var s' := LoopStep(s, c); t in s'.timers && s'.timers[t] == s.timers[t] && LoopTimer(s'.loop) != t
    ensures t in LoopStep(s, c).list <==> t in s.list
  {
    if s.loop.TakePop? {
      assert s.list == [s.list[0]] + s.list[1..];
    }
  }

  lemma HoldingEffect(s: Sys, a: Act, t: TimerId)
    requires Closed(s) && Distinct(s.list) && LockedFront(s) && t in s.timers
    requires a.Loop? && Enabled(s, a) && LoopTimer(s.loop) >= 0
    ensures t in Do(s, a).timers && Effect(s, a, Do(s, a), t)
  {
    if LoopTimer(s.loop) == t {
      HoldingEffectOnOwn(s, a);
    } else {
      HoldingLeavesOthers(s, a.c, t);
    }
  }

  lemma LoopElsewhereEffect(s: Sys, a: Act, t: TimerId)
    requires Closed(s) && t in s.timers && a.Loop? && Enabled(s, a) && LoopTimer(s.loop) == -1
    ensures t in Do(s, a).timers && Effect(s, a, Do(s, a), t)
  {
  }

  lemma OtherEffect(s: Sys, a: Act, t: TimerId)
    requires Closed(s) && t in s.timers && !a.Loop? && !a.Ctl? && Enabled(s, a)
    ensures t in Do(s, a).timers && Effect(s, a, Do(s, a), t)
  {
  }

  lemma StepEffect(s: Sys, a: Act, t: TimerId)
    requires TimersInv(s) && Enabled(s, a) && t in s.timers
    ensures t in Do(s, a).timers && Effect(s, a, Do(s, a), t)
  {
    SortedIsDistinct(s);
    if a.Ctl? {
      CtlEffect(s, a, t);
    } else if !a.Loop? {
      OtherEffect(s, a, t);
    } else if LoopTimer(s.loop) >= 0 {
      HoldingEffect(s, a, t);
    } else {
      LoopElsewhereEffect(s, a, t);
    }
  }
}
