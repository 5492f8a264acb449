/** Who waits for whom in the worker thread protocol: when the holder of mLifecycleLock can be stuck, and that
  * nobody sleeps on a condition variable whose condition holds. */
module WorkerWaits {
  import opened WorkerState
  import opened WorkerProtocol
  import opened WorkerTheorems

  // ---------------------------------------------------------------- one thread, one place

  /** A thread is at one place: the worker inside run may also be in requestStop, or hold the lifecycle lock in
    * the first two sections of start; the holder is not in requestStop as well. */
  predicate Places(s: Sys) {
    && (forall r :: r in s.requesters && r in s.threads ==> s.threads[r].Run?)
    && (s.life.Held? ==> s.life.owner !in s.requesters)
    && (s.life.Held? && s.life.owner in s.threads ==>
          s.threads[s.life.owner].InsideStart? && s.life.op.Start? && (s.life.pc.Enter? || s.life.pc.Begin?))
  }

  lemma FromRunKeepsPlaces(s: Sys, yes: bool, newId: ThreadId)
    requires Core(s) && Places(s) && LifeEnabled(s, newId) && s.life.owner in s.threads
    ensures Places(LifeDo(s, yes, newId))
  {
  }

  lemma CreateKeepsPlaces(s: Sys, yes: bool, newId: ThreadId)
    requires Places(s) && LifeEnabled(s, newId) && s.life.pc.Create? && s.life.owner !in s.threads
    ensures Places(LifeDo(s, yes, newId))
  {
  }

  /** The lock is kept for the same call or given up, and no thread and no requester is touched. */
  predicate HolderOnly(s: Sys, s': Sys)
    requires s.life.Held?
  {
    && (s'.life.Held? ==> s'.life.owner == s.life.owner && s'.life.op == s.life.op)
    && s'.requesters == s.requesters && s'.threads == s.threads
  }

  lemma HolderOnlyKeepsPlaces(s: Sys, s': Sys)
    requires Places(s) && s.life.Held? && s.life.owner !in s.threads && HolderOnly(s, s')
    ensures Places(s')
  {
  }

  lemma LifeMovesHolderOnly(s: Sys, yes: bool, newId: ThreadId)
    requires LifeEnabled(s, newId) && !s.life.pc.Create?
    ensures HolderOnly(s, LifeDo(s, yes, newId))
  {
  }

  lemma LifeKeepsPlaces(s: Sys, yes: bool, newId: ThreadId)
    requires Core(s) && Places(s) && LifeEnabled(s, newId)
    ensures Places(LifeDo(s, yes, newId))
  {
    if s.life.owner in s.threads {
      FromRunKeepsPlaces(s, yes, newId);
    } else if s.life.pc.Create? {
      CreateKeepsPlaces(s, yes, newId);
    } else {
      LifeMovesHolderOnly(s, yes, newId);
      HolderOnlyKeepsPlaces(s, LifeDo(s, yes, newId));
    }
  }

  lemma ThreadKeepsPlaces(s: Sys, t: ThreadId, yes: bool)
    requires Places(s) && ThreadEnabled(s, t, yes)
    ensures Places(ThreadDo(s, t, yes))
  {
  }

  lemma CallKeepsPlaces(s: Sys, a: Act)
    requires Places(s) && Enabled(s, a) && !a.LifeStep? && !a.ThreadStep?
    ensures Places(Do(s, a))
  {
  }

  lemma StepKeepsPlaces(s: Sys, a: Act)
    requires Core(s) && Places(s) && Enabled(s, a)
    ensures Places(Do(s, a))
  {
    match a
    case LifeStep(yes, newId) => LifeKeepsPlaces(s, yes, newId);
    case ThreadStep(t, yes) => ThreadKeepsPlaces(s, t, yes);
    case _ => CallKeepsPlaces(s, a);
  }

  lemma {:induction false} PlacesInRun(run: seq<Sys>, acts: seq<Act>, i: nat)
    requires IsRun(run, acts) && i < |run|
    ensures Core(run[i]) && Places(run[i])
  {
    InvInRun(run, acts, i);
    if i > 0 {
      PlacesInRun(run, acts, i - 1);
      StepKeepsPlaces(run[i - 1], acts[i - 1]);
    }
  }

  // ---------------------------------------------------------------- who waits for whom

  /** The thread that takes a step. */
  function Actor(s: Sys, a: Act): ThreadId
    requires Enabled(s, a)
  {
    match a
    case Call(who, _) => who
    case StartFromRun(t, _) => t
    case LifeStep(_, _) => s.life.owner
    case RequestBy(who) => who
    case RequesterStep(who) => who
    case ThreadStep(t, _) => t
  }

  ghost predicate CanStep(s: Sys, t: ThreadId) {
    exists a :: Enabled(s, a) && Actor(s, a) == t
  }

  /** The holder of mLifecycleLock waits for `t`: the new thread in start, the thread it joins, or one inside
    * onStopRequested. */
  predicate WaitsFor(s: Sys, t: ThreadId) {
    s.life.Held? &&
    match s.life.pc
    case AwaitReady => !s.d.threadReady && t == s.cur
    case JoinThread(id) => t == id && (t in s.threads ==> !s.threads[t].Dead?)
    case JoinAwait => s.d.callbacks > 0 && t in s.requesters
    case _ => false
  }

  /** The holder of mLifecycleLock joins a worker whose run() has called start() and waits for that lock. */
  predicate JoinsBlockedStarter(s: Sys) {
    s.life.Held? && s.life.pc.JoinThread? && s.life.pc.id in s.threads && s.threads[s.life.pc.id].CallsStart?
  }

  /** Neither the holder nor anybody it waits for can take a step. */
  ghost predicate Stuck(s: Sys) {
    s.life.Held? && !CanStep(s, s.life.owner) && forall t :: WaitsFor(s, t) ==> !CanStep(s, t)
  }

  lemma FreshId(ids: set<ThreadId>) returns (id: ThreadId)
    ensures id !in ids && forall t :: t in ids ==> t < id
  {
    if ids == {} {
      id := 1;
    } else {
      var t :| t in ids;
      var other := FreshId(ids - {t});
      id := if t < other then other else t + 1;
      assert forall u :: u in ids ==> u == t || u in ids - {t};
    }
  }

  lemma FreshForCreate(s: Sys) returns (id: ThreadId)
    requires s.life.Held?
    ensures Fresh(s, id)
  {
    id := FreshId(s.threads.Keys + s.requesters.Keys + {s.life.owner, NO_THREAD});
  }

  lemma HolderSteps(s: Sys)
    requires s.life.Held? && !s.life.pc.AwaitReady? && !s.life.pc.JoinThread? && !s.life.pc.JoinAwait?
    ensures CanStep(s, s.life.owner)
  {
    var id := FreshForCreate(s);
    assert Enabled(s, LifeStep(true, id)) && Actor(s, LifeStep(true, id)) == s.life.owner;
  }

  /** Where the holder waits it cannot step itself. */
  lemma WaitingHolder(s: Sys)
    requires Places(s) && s.life.Held?
    requires s.life.pc.AwaitReady? || s.life.pc.JoinThread? || s.life.pc.JoinAwait?
    ensures CanStep(s, s.life.owner) <==> LifeEnabled(s, NO_THREAD)
  {
    if LifeEnabled(s, NO_THREAD) {
      assert Enabled(s, LifeStep(true, NO_THREAD)) && Actor(s, LifeStep(true, NO_THREAD)) == s.life.owner;
    }
  }

  lemma SomeoneCalls(s: Sys)
    requires CallbacksInv(s) && s.d.callbacks > 0 && !CallingBack(s.life)
    ensures exists r :: r in s.requesters
  {
    var r :| r in s.requesters;
  }

  lemma RequesterSteps(s: Sys, r: ThreadId)
    requires r in s.requesters
    ensures CanStep(s, r)
  {
    assert Enabled(s, RequesterStep(r)) && Actor(s, RequesterStep(r)) == r;
  }

  lemma ThreadSteps(s: Sys, t: ThreadId)
    requires ThreadEnabled(s, t, true)
    ensures CanStep(s, t)
  {
    assert Enabled(s, ThreadStep(t, true)) && Actor(s, ThreadStep(t, true)) == t;
  }

  lemma BlockedStarter(s: Sys, t: ThreadId)
    requires Places(s) && s.life.Held? && t in s.threads && s.threads[t].CallsStart?
    ensures !CanStep(s, t)
  {
  }

  lemma AwaitedThreadSteps(s: Sys)
    requires Core(s) && Places(s) && LifeAt(s, AwaitReady) && !s.d.threadReady
    ensures WaitsFor(s, s.cur) && CanStep(s, s.cur)
  {
    ThreadSteps(s, s.cur);
  }

  lemma JoinedThreadSteps(s: Sys, id: ThreadId)
    requires Core(s) && Places(s) && LifeAt(s, JoinThread(id))
    requires id in s.threads && !s.threads[id].Dead? && !s.threads[id].CallsStart?
    ensures WaitsFor(s, id) && CanStep(s, id)
  {
    if id in s.requesters {
      RequesterSteps(s, id);
    } else {
      ThreadSteps(s, id);
    }
  }

  lemma StuckIff(s: Sys)
    requires Core(s) && Places(s) && s.life.Held?
    ensures Stuck(s) <==> JoinsBlockedStarter(s)
  {
    match s.life.pc
    case AwaitReady =>
      WaitingHolder(s);
      if !s.d.threadReady {
        AwaitedThreadSteps(s);
      }
    case JoinThread(id) =>
      WaitingHolder(s);
      JoinedIsCurrent(s, id);
      if s.threads[id].CallsStart? {
        BlockedStarter(s, id);
      } else if !s.threads[id].Dead? {
        JoinedThreadSteps(s, id);
      }
    case JoinAwait =>
      WaitingHolder(s);
      if s.d.callbacks > 0 {
        SomeoneCalls(s);
        var r :| r in s.requesters;
        RequesterSteps(s, r);
      }
    case _ => HolderSteps(s);
  }

  /** The holder of mLifecycleLock and everybody it waits for are stuck exactly when it joins a worker whose run()
    * is blocked in start(). */
  lemma HolderIsStuckIff(run: seq<Sys>, acts: seq<Act>, i: nat)
    requires IsRun(run, acts) && i < |run| && run[i].life.Held?
    ensures Stuck(run[i]) <==> JoinsBlockedStarter(run[i])
  {
    PlacesInRun(run, acts, i);
    StuckIff(run[i]);
  }

  lemma BlockedStays(s: Sys, a: Act)
    requires Core(s) && Places(s) && JoinsBlockedStarter(s) && Enabled(s, a)
    ensures Do(s, a).life == s.life && JoinsBlockedStarter(Do(s, a))
  {
  }

  ghost predicate BlockedOver(run: seq<Sys>, k: nat) {
    k + 1 < |run|
    && (JoinsBlockedStarter(run[k]) ==> run[k + 1].life == run[k].life && JoinsBlockedStarter(run[k + 1]))
  }

  lemma {:induction false} BlockedCarries(run: seq<Sys>, i: nat, j: nat)
    requires i <= j < |run| && JoinsBlockedStarter(run[i]) && forall k :: i <= k < j ==> BlockedOver(run, k)
    ensures run[j].life == run[i].life && JoinsBlockedStarter(run[j])
  {
    if i < j {
      BlockedCarries(run, i, j - 1);
      assert BlockedOver(run, j - 1);
    }
  }

  lemma BlockedForEver(run: seq<Sys>, acts: seq<Act>, i: nat, j: nat)
    requires IsRun(run, acts) && i <= j < |run| && JoinsBlockedStarter(run[i])
    ensures run[j].life == run[i].life && JoinsBlockedStarter(run[j])
  {
    forall k | i <= k < j ensures BlockedOver(run, k) {
      if JoinsBlockedStarter(run[k]) {
        PlacesInRun(run, acts, k);
        BlockedStays(run[k], acts[k]);
      }
    }
    BlockedCarries(run, i, j);
  }

  /** Once stuck, stuck for ever: whatever the other threads do, the call that joins never returns. */
  lemma StuckForEver(run: seq<Sys>, acts: seq<Act>, i: nat, j: nat)
    requires IsRun(run, acts) && i <= j < |run| && Stuck(run[i])
    ensures run[j].life == run[i].life && Stuck(run[j])
  {
    HolderIsStuckIff(run, acts, i);
    BlockedForEver(run, acts, i, j);
    HolderIsStuckIff(run, acts, j);
  }

  /** run() that calls start() while its thread is being joined makes both stuck. */
  lemma StartFromRunSticks(run: seq<Sys>, acts: seq<Act>, i: nat, t: ThreadId, w: Worker)
    requires IsRun(run, acts) && i < |run| && LifeAt(run[i], JoinThread(t)) && Enabled(run[i], StartFromRun(t, w))
    ensures Stuck(Do(run[i], StartFromRun(t, w)))
  {
    var a := StartFromRun(t, w);
    PlacesInRun(run, acts, i);
    StepKeepsCore(run[i], a);
    StepKeepsPlaces(run[i], a);
    StuckIff(Do(run[i], a));
  }

  predicate NobodyCallsStart(s: Sys) {
    forall t :: t in s.threads ==> !s.threads[t].CallsStart?
  }

  lemma LifeCallsNoStart(s: Sys, yes: bool, newId: ThreadId)
    requires LifeEnabled(s, newId) && NobodyCallsStart(s)
    ensures NobodyCallsStart(LifeDo(s, yes, newId))
  {
    if !s.life.pc.Create? {
      LifeMovesHolderOnly(s, yes, newId);
    }
  }

  lemma StepCallsNoStart(s: Sys, a: Act)
    requires Enabled(s, a) && !a.StartFromRun? && NobodyCallsStart(s)
    ensures NobodyCallsStart(Do(s, a))
  {
    if a.LifeStep? {
      LifeCallsNoStart(s, a.yes, a.newId);
    }
  }

  lemma {:induction false} NobodyCallsStartInRun(run: seq<Sys>, acts: seq<Act>, i: nat)
    requires IsRun(run, acts) && i < |run|
    requires forall k :: 0 <= k < i ==> !acts[k].StartFromRun?
    ensures NobodyCallsStart(run[i])
  {
    if i > 0 {
      NobodyCallsStartInRun(run, acts, i - 1);
      StepCallsNoStart(run[i - 1], acts[i - 1]);
    }
  }

  /** A worker whose run() does not call start() leaves nobody stuck. */
  lemma NeverStuckWithout(run: seq<Sys>, acts: seq<Act>, i: nat)
    requires IsRun(run, acts) && i < |run|
    requires forall k :: 0 <= k < i ==> !acts[k].StartFromRun?
    ensures !Stuck(run[i])
  {
    NobodyCallsStartInRun(run, acts, i);
    if run[i].life.Held? {
      HolderIsStuckIff(run, acts, i);
    }
  }

  ghost predicate Reachable(s: Sys) {
    exists run, acts :: IsRun(run, acts) && run[|acts|] == s
  }

  lemma ReachStep(s: Sys, a: Act, s': Sys)
    requires Reachable(s) && Enabled(s, a) && s' == Do(s, a)
    ensures Reachable(s')
  {
    var run, acts :| IsRun(run, acts) && run[|acts|] == s;
    assert IsRun(run + [s'], acts + [a]) && (run + [s'])[|acts + [a]|] == s';
  }

  /** The worker `w` runs as thread `t`. */
  function RunningAs(w: Worker, t: ThreadId, pc: WorkPc, trace: seq<Event>): Sys {
    Sys(RESET.(state := Running, worker := w, id := t, threadReady := true, startReleased := true),
        Free, map[], map[t := pc], t, true, false, true, trace, [])
  }

  /** A start by thread `a` before the thread is created. */
  function Preparing(w: Worker, a: ThreadId, pc: LifePc, trace: seq<Event>): Sys {
    Sys(RESET.(state := Starting, worker := w), Held(a, Start(w), pc), map[], map[], NO_THREAD, false, false, true,
        trace, [])
  }

  lemma ReachClaimed(w: Worker, a: ThreadId)
    requires w != NO_WORKER
    ensures Reachable(Preparing(w, a, InitAttr, []))
  {
    assert IsRun([INITIAL], []) && [INITIAL][0] == INITIAL;
    var s1 := INITIAL.(life := Held(a, Start(w), Enter));
    ReachStep(INITIAL, Call(a, Start(w)), s1);
    var s2 := INITIAL.(life := Held(a, Start(w), Begin));
    ReachStep(s1, LifeStep(true, NO_THREAD), s2);
    ReachStep(s2, LifeStep(true, NO_THREAD), Preparing(w, a, InitAttr, []));
  }

  lemma ReachCreate(w: Worker, a: ThreadId)
    requires w != NO_WORKER
    ensures Reachable(Preparing(w, a, Create, [Prepared(true)]))
  {
    ReachClaimed(w, a);
    ReachStep(Preparing(w, a, InitAttr, []), LifeStep(true, NO_THREAD), Preparing(w, a, Prepare, []));
    ReachStep(Preparing(w, a, Prepare, []), LifeStep(true, NO_THREAD), Preparing(w, a, Create, [Prepared(true)]));
  }

  /** The same start when the thread exists. */
  function Releasing(w: Worker, a: ThreadId, pc: LifePc, id: ThreadId, t: ThreadId, work: WorkPc): Sys {
    Sys(RESET.(state := Starting, worker := w, id := id, threadReady := work != Born), Held(a, Start(w), pc), map[],
        map[t := work], t, true, false, true, [Prepared(true)], [])
  }

  lemma ReachCreated(w: Worker, a: ThreadId, t: ThreadId)
    requires w != NO_WORKER && t != NO_THREAD && t != a
    ensures Reachable(Releasing(w, a, Publish, NO_THREAD, t, Born))
  {
    ReachCreate(w, a);
    ReachStep(Preparing(w, a, Create, [Prepared(true)]), LifeStep(true, t),
              Releasing(w, a, Publish, NO_THREAD, t, Born));
  }

  lemma ReachReady(w: Worker, a: ThreadId, t: ThreadId)
    requires w != NO_WORKER && t != NO_THREAD && t != a
    ensures Reachable(Releasing(w, a, AwaitReady, t, t, AwaitRelease))
  {
    ReachCreated(w, a, t);
    var s := Releasing(w, a, AwaitReady, t, t, Born);
    ReachStep(Releasing(w, a, Publish, NO_THREAD, t, Born), LifeStep(true, NO_THREAD), s);
    ReachStep(s, ThreadStep(t, true), Releasing(w, a, AwaitReady, t, t, AwaitRelease));
  }

  lemma ReachReleased(w: Worker, a: ThreadId, t: ThreadId)
    requires w != NO_WORKER && t != NO_THREAD && t != a
    ensures Reachable(RunningAs(w, t, AwaitRelease, [Prepared(true)]))
  {
    ReachReady(w, a, t);
    ReachStep(Releasing(w, a, AwaitReady, t, t, AwaitRelease), LifeStep(true, NO_THREAD),
              RunningAs(w, t, AwaitRelease, [Prepared(true)]));
  }

  lemma ReachRun(w: Worker, a: ThreadId, t: ThreadId)
    requires w != NO_WORKER && t != NO_THREAD && t != a
    ensures Reachable(RunningAs(w, t, Run, [Prepared(true), RunBegin]))
  {
    ReachReleased(w, a, t);
    var s1 := RunningAs(w, t, Entering(w), [Prepared(true)]);
    ReachStep(RunningAs(w, t, AwaitRelease, [Prepared(true)]), ThreadStep(t, true), s1);
    ReachStep(s1, ThreadStep(t, true), RunningAs(w, t, Run, [Prepared(true), RunBegin]));
  }

  /** Thread `b` has called stop: the request is made, and onStopRequested called as far as the trace says. */
  function StoppingBy(w: Worker, t: ThreadId, b: ThreadId, pc: LifePc, trace: seq<Event>): Sys {
    var s := RunningAs(w, t, Run, [Prepared(true), RunBegin] + trace);
    s.(d := s.d.(state := Stopping, stopRequested := true, wakeupRequested := true,
                 callbacks := if pc.Callback? then 1 else 0),
       notified := true, life := Held(b, Stop, pc))
  }

  lemma ReachCallback(w: Worker, a: ThreadId, b: ThreadId, t: ThreadId)
    requires w != NO_WORKER && t != NO_THREAD && t != a && t != b
    ensures Reachable(StoppingBy(w, t, b, Callback(Owed), []))
  {
    ReachRun(w, a, t);
    var s0 := RunningAs(w, t, Run, [Prepared(true), RunBegin]);
    ReachStep(s0, Call(b, Stop), s0.(life := Held(b, Stop, Enter)));
    ReachStep(s0.(life := Held(b, Stop, Enter)), LifeStep(true, NO_THREAD), s0.(life := Held(b, Stop, RequestStop)));
    assert [Prepared(true), RunBegin] + [] == [Prepared(true), RunBegin];
    ReachStep(s0.(life := Held(b, Stop, RequestStop)), LifeStep(true, NO_THREAD),
              StoppingBy(w, t, b, Callback(Owed), []));
  }

  lemma ReachStopCheck(w: Worker, a: ThreadId, b: ThreadId, t: ThreadId)
    requires w != NO_WORKER && t != NO_THREAD && t != a && t != b
    ensures Reachable(StoppingBy(w, t, b, StopCheck, [StopBegin, StopEnd]))
  {
    ReachCallback(w, a, b, t);
    ReachStep(StoppingBy(w, t, b, Callback(Owed), []), LifeStep(true, NO_THREAD),
              StoppingBy(w, t, b, Callback(Inside), [StopBegin]));
    ReachStep(StoppingBy(w, t, b, Callback(Inside), [StopBegin]), LifeStep(true, NO_THREAD),
              StoppingBy(w, t, b, Callback(Over), [StopBegin, StopEnd]));
    ReachStep(StoppingBy(w, t, b, Callback(Over), [StopBegin, StopEnd]), LifeStep(true, NO_THREAD),
              StoppingBy(w, t, b, StopCheck, [StopBegin, StopEnd]));
  }

  lemma ReachJoin(w: Worker, a: ThreadId, b: ThreadId, t: ThreadId)
    requires w != NO_WORKER && t != NO_THREAD && t != a && t != b
    ensures Reachable(StoppingBy(w, t, b, JoinThread(t), [StopBegin, StopEnd]))
  {
    ReachStopCheck(w, a, b, t);
    var trace := [StopBegin, StopEnd];
    ReachStep(StoppingBy(w, t, b, StopCheck, trace), LifeStep(true, NO_THREAD), StoppingBy(w, t, b, JoinLook, trace));
    ReachStep(StoppingBy(w, t, b, JoinLook, trace), LifeStep(true, NO_THREAD),
              StoppingBy(w, t, b, JoinThread(t), trace));
  }

  /** One thread starts the worker, another stops it, and run() calls start: the stop never returns. */
  lemma StuckIsReachable(w: Worker, a: ThreadId, b: ThreadId, t: ThreadId) returns (run: seq<Sys>, acts: seq<Act>)
    requires w != NO_WORKER && t != NO_THREAD && t != a && t != b
    ensures IsRun(run, acts) && |acts| > 0 && acts[|acts| - 1] == StartFromRun(t, w)
    ensures Stuck(run[|acts|]) && run[|acts|].life == Held(b, Stop, JoinThread(t))
  {
    ReachJoin(w, a, b, t);
    var s := StoppingBy(w, t, b, JoinThread(t), [StopBegin, StopEnd]);
    var run0, acts0 :| IsRun(run0, acts0) && run0[|acts0|] == s;
    StartFromRunSticks(run0, acts0, |acts0|, t, w);
    run, acts := run0 + [Do(s, StartFromRun(t, w))], acts0 + [StartFromRun(t, w)];
  }

  /** A thread that is in no call can ask for a stop at any time, and call start, join or stop whenever the lock is
    * free; inside run() the worker can ask, call msleep, call start or return. */
  lemma CallsAreOpen(run: seq<Sys>, acts: seq<Act>, i: nat, who: ThreadId, w: Worker)
    requires IsRun(run, acts) && i < |run| && w != NO_WORKER && who !in run[i].requesters && !Holds(run[i], who)
    ensures who !in run[i].threads ==> Enabled(run[i], RequestBy(who))
    ensures who !in run[i].threads && run[i].life.Free? ==>
              && Enabled(run[i], Call(who, Start(w))) && Enabled(run[i], Call(who, Join))
              && Enabled(run[i], Call(who, Stop))
    ensures who in run[i].threads && run[i].threads[who].Run? ==>
              && Enabled(run[i], RequestBy(who)) && Enabled(run[i], StartFromRun(who, w))
              && Enabled(run[i], ThreadStep(who, true)) && Enabled(run[i], ThreadStep(who, false))
    ensures who in run[i].threads && run[i].threads[who].CallsStart? && run[i].life.Free? ==>
              Enabled(run[i], Call(who, Start(run[i].threads[who].worker)))
  {
    PlacesInRun(run, acts, i);
    StartersInRun(run, acts, i);
    if run[i].life.Free? && who !in run[i].threads {
      CallersAreOpen(run[i], who);
    }
  }

  /** Whoever calls start from run() has a worker. */
  predicate StartersBring(s: Sys) {
    forall t :: t in s.threads && s.threads[t].CallsStart? ==> s.threads[t].worker != NO_WORKER
  }

  lemma LifeKeepsStarters(s: Sys, yes: bool, newId: ThreadId)
    requires LifeEnabled(s, newId) && StartersBring(s)
    ensures StartersBring(LifeDo(s, yes, newId))
  {
    if !s.life.pc.Create? {
      LifeMovesHolderOnly(s, yes, newId);
    }
  }

  lemma {:induction false} StartersInRun(run: seq<Sys>, acts: seq<Act>, i: nat)
    requires IsRun(run, acts) && i < |run|
    ensures StartersBring(run[i])
  {
    if i > 0 {
      StartersInRun(run, acts, i - 1);
      StepKeepsStarters(run[i - 1], acts[i - 1]);
    }
  }

  lemma StepKeepsStarters(s: Sys, a: Act)
    requires Enabled(s, a) && StartersBring(s)
    ensures StartersBring(Do(s, a))
  {
    if a.LifeStep? {
      LifeKeepsStarters(s, a.yes, a.newId);
    }
  }

  lemma CallersAreOpen(s: Sys, who: ThreadId)
    requires Core(s) && s.life.Free? && who !in s.threads
    ensures !IsCurrentThread(s.d, who)
  {
  }

  /** start() called from run() that gets the lock changes nothing but the lock, and is refused. */
  lemma StartFromRunIsRefused(run: seq<Sys>, acts: seq<Act>, i: nat, yes: bool, newId: ThreadId)
    requires IsRun(run, acts) && i < |run| && LifeEnabled(run[i], newId) && run[i].life.owner in run[i].threads
    ensures var s, s' := run[i], LifeDo(run[i], yes, newId);
            s' == s.(life := if s.life.pc.Enter? then s.life.(pc := Begin) else Free)
            && (s.life.pc.Enter? || (s.life.op.Start? && s.life.pc.Begin? && !Claim(s.d, s.life.op.worker).1))
  {
    PlacesInRun(run, acts, i);
  }

  /** A thread asleep in msleep is free to go on, without its timeout, as soon as a stop is requested. */
  lemma StopEndsSleep(run: seq<Sys>, acts: seq<Act>, i: nat, t: ThreadId)
    requires IsRun(run, acts) && i < |run| && t in run[i].threads && run[i].threads[t] == Asleep
    ensures run[i].d.stopRequested <==> ThreadEnabled(run[i], t, false)
  {
    PlacesInRun(run, acts, i);
  }
}
