/** What holds when a call on the worker thread returns, and what a whole undisturbed call does. */
module WorkerAnswers {
  import opened WorkerState
  import opened WorkerProtocol
  import opened WorkerTheorems
  import opened WorkerWaits

  // ---------------------------------------------------------------- returns

  /** The holder of mLifecycleLock gives it up: start, join or stop returns. */
  predicate ReturnsAt(s: Sys, a: Act) {
    a.LifeStep? && LifeEnabled(s, a.newId) && LifeNext(s.d, s.life.op, s.life.pc, a.yes).Return?
  }

  /** Nothing of a session is left: idle, no thread alive, no callback under way. */
  ghost predicate AtRest(s: Sys) {
    && s.d == RESET && !s.open && s.requesters == map[]
    && forall t :: t in s.threads ==> s.threads[t] == Dead
  }

  lemma FreedByReturn(s: Sys, a: Act)
    requires Enabled(s, a) && s.life.Held? && Do(s, a).life.Free?
    ensures ReturnsAt(s, a)
  {
  }

  lemma IdleIsAtRest(s: Sys)
    requires Core(s) && s.d.state == Idle && !s.open
    ensures AtRest(s)
  {
  }

  /** join and stop return where they see an idle object, or make it idle. */
  lemma JoinReturnsFrom(s: Sys, yes: bool)
    requires Core(s) && s.life.Held? && !s.life.op.Start?
    requires LifeNext(s.d, s.life.op, s.life.pc, yes).Return?
    ensures s.life.pc.JoinReset? || s.life.pc.FailCleanup?
            || ((s.life.pc.Enter? || s.life.pc.StopCheck?) && s.d.state == Idle && !s.open)
  {
  }

  lemma JoinEndsIdle(s: Sys, a: Act)
    requires Core(s) && Enabled(s, a) && ReturnsAt(s, a) && !s.life.op.Start?
    ensures Do(s, a).d.state == Idle && !Do(s, a).open
  {
    JoinReturnsFrom(s, a.yes);
  }

  /** When `join` or `stop` returns, whatever was under way when it was called, nothing of a session is left: the
    * thread is joined, every callback is over, and the object is idle. */
  lemma JoinLeavesAtRest(run: seq<Sys>, acts: seq<Act>, i: nat)
    requires IsRun(run, acts) && i < |acts| && run[i].life.Held? && !run[i].life.op.Start? && run[i + 1].life.Free?
    ensures AtRest(run[i + 1])
  {
    InvInRun(run, acts, i);
    InvInRun(run, acts, i + 1);
    FreedByReturn(run[i], acts[i]);
    JoinEndsIdle(run[i], acts[i]);
    IdleIsAtRest(run[i + 1]);
  }

  /** From the claim to its return start works with its own worker. */
  predicate OwnWorker(s: Sys) {
    InStart(s.life) || (CallingBack(s.life) && s.life.op.Start?) ==> s.d.worker == s.life.op.worker
  }

  lemma LifeKeepsOwnWorker(s: Sys, yes: bool, newId: ThreadId)
    requires Core(s) && OwnWorker(s) && LifeEnabled(s, newId)
    ensures OwnWorker(LifeDo(s, yes, newId))
  {
  }

  lemma StepKeepsOwnWorker(s: Sys, a: Act)
    requires Core(s) && OwnWorker(s) && Enabled(s, a)
    ensures OwnWorker(Do(s, a))
  {
    match a
    case LifeStep(yes, newId) => LifeKeepsOwnWorker(s, yes, newId);
    case _ =>
  }

  lemma {:induction false} OwnWorkerInRun(run: seq<Sys>, acts: seq<Act>, i: nat)
    requires IsRun(run, acts) && i < |run|
    ensures Inv(run[i]) && OwnWorker(run[i])
  {
    InvInRun(run, acts, i);
    if i > 0 {
      OwnWorkerInRun(run, acts, i - 1);
      StepKeepsOwnWorker(run[i - 1], acts[i - 1]);
    }
  }

  /** start has been refused: the object was not idle, and nothing has changed. */
  predicate WasRefused(s: Sys, s': Sys) {
    s.d.state != Idle && s' == s.(life := Free)
  }

  /** start has failed: idle again, and the session consists of what was prepared and cleaned up. */
  ghost predicate HasFailed(s: Sys, s': Sys) {
    && s'.d == RESET && !s'.open
    && exists w :: s'.sessions == s.sessions + [w]
                   && (w == [] || w == [Prepared(false)] || w == [Prepared(true), CleanupBegin, CleanupEnd])
  }

  /** start has succeeded: a session of its worker is under way, with the thread it has created. */
  predicate HasStarted(s: Sys, s': Sys)
    requires s.life.Held? && s.life.op.Start?
  {
    && s'.open && s'.unjoined && s'.d.id == s'.cur && s'.d.worker == s.life.op.worker
    && (s'.d.state == Running || s'.d.state == Stopping || s'.d.state == Exited)
    && s'.d.startReleased && s'.sessions == s.sessions
  }

  lemma FailureEnds(s: Sys, a: Act)
    requires Inv(s) && Enabled(s, a) && ReturnsAt(s, a) && s.life.op.Start?
    requires s.life.pc.Fail? || s.life.pc.FailCleanup?
    ensures HasFailed(s, Do(s, a))
  {
    FailingIsEarly(s);
    var s' := Do(s, a);
    if s.life.pc.FailCleanup? {
      var w := s.trace + [CleanupEnd];
      assert w == [Prepared(true), CleanupBegin, CleanupEnd] && s'.sessions == s.sessions + [w];
    } else {
      assert s'.sessions == s.sessions + [s.trace];
    }
  }

  lemma SuccessEnds(s: Sys, a: Act)
    requires Inv(s) && OwnWorker(s) && Enabled(s, a) && ReturnsAt(s, a) && s.life.op.Start?
    requires s.life.pc.AwaitReady? || s.life.pc.Callback?
    ensures HasStarted(s, Do(s, a))
  {
    if s.life.pc.Callback? {
      NotifiedEnds(s, a);
    }
  }

  lemma NotifiedEnds(s: Sys, a: Act)
    requires StateInv(s) && OwnWorker(s) && Enabled(s, a) && ReturnsAt(s, a) && s.life.op.Start? && s.life.pc.Callback?
    ensures HasStarted(s, Do(s, a))
  {
  }

  lemma StartReturnsFrom(s: Sys, a: Act)
    requires Core(s) && Enabled(s, a) && ReturnsAt(s, a) && s.life.op.Start?
    ensures s.life.pc.Fail? || s.life.pc.FailCleanup? || s.life.pc.AwaitReady? || s.life.pc.Callback?
            || (s.life.pc.Begin? && WasRefused(s, Do(s, a)))
  {
  }

  /** When `start` returns it was refused by an object that is not idle, or it has failed and left nothing, or a
    * session of its worker is under way, stopping already if a stop came first. */
  lemma StartAnswers(run: seq<Sys>, acts: seq<Act>, i: nat)
    requires IsRun(run, acts) && i < |acts| && run[i].life.Held? && run[i].life.op.Start? && run[i + 1].life.Free?
    ensures WasRefused(run[i], run[i + 1]) || HasFailed(run[i], run[i + 1]) || HasStarted(run[i], run[i + 1])
  {
    OwnWorkerInRun(run, acts, i);
    FreedByReturn(run[i], acts[i]);
    StartReturnsFrom(run[i], acts[i]);
    if run[i].life.pc.Fail? || run[i].life.pc.FailCleanup? {
      FailureEnds(run[i], acts[i]);
    } else if !run[i].life.pc.Begin? {
      SuccessEnds(run[i], acts[i]);
    }
  }

  // ---------------------------------------------------------------- requests

  /** Past its own request, stop has asked the session under way to stop. */
  predicate StopHasAsked(s: Sys) {
    s.life.Held? && s.life.op.Stop? && !s.life.pc.Enter? && !s.life.pc.RequestStop? ==>
      s.d.stopRequested || s.d.state == Idle || s.d.state == Exited
  }

  /** Past the release of the thread, onStopRequested has come to be owed exactly if a stop was requested. */
  predicate NotifiedIff(s: Sys) {
    (s.d.state == Exited || s.d.state == Running || s.d.state == Stopping) ==> (s.d.stopRequested <==> s.notified)
  }

  lemma LifeKeepsRequests(s: Sys, yes: bool, newId: ThreadId)
    requires Core(s) && StopHasAsked(s) && NotifiedIff(s) && LifeEnabled(s, newId)
    ensures StopHasAsked(LifeDo(s, yes, newId)) && NotifiedIff(LifeDo(s, yes, newId))
  {
  }

  lemma StepKeepsRequests(s: Sys, a: Act)
    requires Core(s) && StopHasAsked(s) && NotifiedIff(s) && Enabled(s, a)
    ensures StopHasAsked(Do(s, a)) && NotifiedIff(Do(s, a))
  {
    match a
    case LifeStep(yes, newId) => LifeKeepsRequests(s, yes, newId);
    case _ =>
  }

  lemma {:induction false} RequestsInRun(run: seq<Sys>, acts: seq<Act>, i: nat)
    requires IsRun(run, acts) && i < |run|
    ensures Inv(run[i]) && StopHasAsked(run[i]) && NotifiedIff(run[i])
  {
    InvInRun(run, acts, i);
    if i > 0 {
      RequestsInRun(run, acts, i - 1);
      StepKeepsRequests(run[i - 1], acts[i - 1]);
    }
  }

  /** stop waits for the thread only after its request stands, or with the thread's run() already over. */
  lemma StopAsksFirst(run: seq<Sys>, acts: seq<Act>, i: nat)
    requires IsRun(run, acts) && i < |run| && run[i].life.Held? && run[i].life.op.Stop?
    requires run[i].life.pc.JoinLook? || run[i].life.pc.JoinThread? || run[i].life.pc.JoinAwait?
    ensures run[i].d.stopRequested || run[i].d.state == Exited
  {
    RequestsInRun(run, acts, i);
  }

  lemma {:induction false} StopPartHas(w: seq<Event>)
    ensures StopBegin in w <==> StopBegin in StopPart(w)
  {
    if w != [] {
      StopPartHas(w[..|w| - 1]);
      assert w == w[..|w| - 1] + [w[|w| - 1]];
    }
  }

  lemma BodyHas(trace: seq<Event>)
    requires WorkingWord(trace, [CleanupBegin, CleanupEnd], [RunBegin, RunEnd])
    ensures StopBegin in trace <==> StopBegin in StopPart(Body(trace, 2))
  {
    assert trace == [trace[0]] + Body(trace, 2) + trace[|trace| - 2..];
    StopPartHas(Body(trace, 2));
  }

  lemma StopsByNotice(s: Sys)
    requires Inv(s) && LifeAt(s, JoinReset)
    ensures StopPart(Body(s.trace, 2)) == if s.notified then [StopBegin, StopEnd] else []
  {
    AtReset(s);
    assert StopTraceIs(s, StopPart(Body(s.trace, 2)));
  }

  /** A session that is joined has had its onStopRequested call exactly if a stop was requested before its run()
    * was over, by whomever and however early. */
  lemma StopIsNotified(run: seq<Sys>, acts: seq<Act>, i: nat)
    requires IsRun(run, acts) && i < |run| && LifeAt(run[i], JoinReset)
    ensures StopBegin in run[i].trace <==> run[i].d.stopRequested
  {
    RequestsInRun(run, acts, i);
    InCleanupState(run[i]);
    AtReset(run[i]);
    StopsByNotice(run[i]);
    BodyHas(run[i].trace);
  }

  lemma InCleanupState(s: Sys)
    requires Core(s) && LifeAt(s, JoinReset)
    ensures s.d.state == Exited
  {
  }

  /** requestStop comes to owe onStopRequested exactly if it finds the object Running. */
  lemma RequestOwesIff(run: seq<Sys>, acts: seq<Act>, i: nat)
    requires IsRun(run, acts) && i < |acts|
    ensures acts[i].RequestBy? ==> (acts[i].who in run[i + 1].requesters <==> run[i].d.state == Running)
    ensures acts[i].LifeStep? && LifeAt(run[i], RequestStop) ==>
              (CallingBack(run[i + 1].life) <==> run[i].d.state == Running)
  {
    InvInRun(run, acts, i);
    if acts[i].LifeStep? && LifeAt(run[i], RequestStop) {
      RequestMoves(run[i], acts[i].yes, acts[i].newId);
    }
  }

  /** msleep called from run() goes to sleep exactly if no stop is requested. */
  lemma MsleepSleepsIff(run: seq<Sys>, acts: seq<Act>, i: nat, t: ThreadId)
    requires IsRun(run, acts) && i < |acts| && acts[i] == ThreadStep(t, true) && run[i].threads[t] == Run
    ensures run[i + 1].threads[t] == if run[i].d.stopRequested then Run else Asleep
  {
    InvInRun(run, acts, i);
  }
}
