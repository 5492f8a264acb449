/** What holds in every run of the worker thread protocol. */
module WorkerTheorems {
  import opened WorkerState
  import opened WorkerProtocol

  lemma {:induction false} InvInRun(run: seq<Sys>, acts: seq<Act>, i: nat)
    requires IsRun(run, acts) && i < |run|
    ensures Inv(run[i])
  {
    if i > 0 {
      InvInRun(run, acts, i - 1);
      StepKeepsInv(run[i - 1], acts[i - 1]);
    }
  }

  // ---------------------------------------------------------------- the callback language

  /** The calls of every finished session form a word of the language. */
  lemma SessionsInLanguage(run: seq<Sys>, acts: seq<Act>, i: nat, w: seq<Event>)
    requires IsRun(run, acts) && i < |run| && w in run[i].sessions
    ensures Complete(w)
  {
    InvInRun(run, acts, i);
  }

  /** The run events still to come. */
  function RunRest(work: WorkPc): seq<Event> {
    match work
    case Leaving => []
    case Dead => []
    case _ => if InRun(work) then [RunEnd] else [RunBegin, RunEnd]
  }

  function StopRest(stops: seq<Event>): seq<Event> {
    if stops == [StopBegin] then [StopEnd] else []
  }

  lemma FinishRunning(trace: seq<Event>)
    requires WorkingWord(trace, [], [RunBegin])
    ensures WorkingWord(trace + [RunEnd], [], [RunBegin, RunEnd])
    ensures StopPart(Body(trace + [RunEnd], 0)) == StopPart(Body(trace, 0))
  {
    WordGrows(trace, [RunBegin], RunEnd);
    assert [RunBegin] + [RunEnd] == [RunBegin, RunEnd];
  }

  lemma StartRunning(trace: seq<Event>)
    requires WorkingWord(trace, [], [])
    ensures WorkingWord(trace + [RunBegin], [], [RunBegin])
    ensures StopPart(Body(trace + [RunBegin], 0)) == StopPart(Body(trace, 0))
  {
    WordGrows(trace, [], RunBegin);
    assert [] + [RunBegin] == [RunBegin];
  }

  lemma RunWhole(trace: seq<Event>)
    requires WorkingWord(trace, [], [])
    ensures WorkingWord(trace + [RunBegin, RunEnd], [], [RunBegin, RunEnd])
    ensures StopPart(Body(trace + [RunBegin, RunEnd], 0)) == StopPart(Body(trace, 0))
  {
    StartRunning(trace);
    FinishRunning(trace + [RunBegin]);
    assert trace + [RunBegin, RunEnd] == trace + [RunBegin] + [RunEnd];
  }

  lemma FinishRuns(trace: seq<Event>, work: WorkPc)
    requires WorkingWord(trace, [], WorkTrace(work))
    ensures WorkingWord(trace + RunRest(work), [], [RunBegin, RunEnd])
    ensures StopPart(Body(trace + RunRest(work), 0)) == StopPart(Body(trace, 0))
  {
    if InRun(work) {
      FinishRunning(trace);
    } else if work.Leaving? || work.Dead? {
      assert trace + [] == trace;
    } else {
      RunWhole(trace);
    }
  }

  lemma FinishStops(trace: seq<Event>)
    requires WorkingWord(trace, [], [RunBegin, RunEnd])
    requires StopPart(Body(trace, 0)) in {[], [StopBegin], [StopBegin, StopEnd]}
    ensures var u := trace + StopRest(StopPart(Body(trace, 0)));
            WorkingWord(u, [], [RunBegin, RunEnd]) && StopPart(Body(u, 0)) in {[], [StopBegin, StopEnd]}
  {
    if StopPart(Body(trace, 0)) == [StopBegin] {
      WordGrows(trace, [RunBegin, RunEnd], StopEnd);
      assert [StopBegin] + [StopEnd] == [StopBegin, StopEnd];
    } else {
      assert trace + [] == trace;
    }
  }

  lemma FinishCleanup(u: seq<Event>)
    requires WorkingWord(u, [], [RunBegin, RunEnd]) && StopPart(Body(u, 0)) in {[], [StopBegin, StopEnd]}
    ensures Complete(u + [CleanupBegin, CleanupEnd])
  {
    WordEnds(u, [], [RunBegin, RunEnd], CleanupBegin);
    WordEnds(u + [CleanupBegin], [CleanupBegin], [RunBegin, RunEnd], CleanupEnd);
    assert u + [CleanupBegin] + [CleanupEnd] == u + [CleanupBegin, CleanupEnd];
  }

  lemma FinishWord(trace: seq<Event>, work: WorkPc)
    requires WorkingWord(trace, [], WorkTrace(work))
    requires StopPart(Body(trace, 0)) in {[], [StopBegin], [StopBegin, StopEnd]}
    ensures Complete(trace + RunRest(work) + StopRest(StopPart(Body(trace, 0))) + [CleanupBegin, CleanupEnd])
  {
    FinishRuns(trace, work);
    FinishStops(trace + RunRest(work));
    FinishCleanup(trace + RunRest(work) + StopRest(StopPart(Body(trace, 0))));
  }

  /** onCleanup has begun: run and the callback are over, and only its end is missing. */
  lemma FinishInCleanup(s: Sys)
    requires WorkingTrace(s) && LifeAt(s, Cleanup(true)) && CurPc(s) == Dead && s.d.callbacks == 0
    ensures Complete(s.trace + [CleanupEnd])
  {
    assert StopTraceIs(s, StopPart(Body(s.trace, 1)));
    EndOfCleanup(s.trace);
  }

  lemma EndOfCleanup(trace: seq<Event>)
    requires WorkingWord(trace, [CleanupBegin], [RunBegin, RunEnd])
    requires StopPart(Body(trace, 1)) in {[], [StopBegin, StopEnd]}
    ensures Complete(trace + [CleanupEnd])
  {
    WordEnds(trace, [CleanupBegin], [RunBegin, RunEnd], CleanupEnd);
    assert [CleanupBegin] + [CleanupEnd] == [CleanupBegin, CleanupEnd];
  }

  lemma InCleanup(s: Sys)
    requires Inv(s) && LifeAt(s, Cleanup(true))
    ensures WorkingTrace(s) && CurPc(s) == Dead && s.d.callbacks == 0
  {
  }

  lemma StopsSoFar(s: Sys, w: seq<Event>)
    requires StopTraceIs(s, w) && CallbacksInv(s)
    ensures w in {[], [StopBegin], [StopBegin, StopEnd]}
  {
    if s.requesters != map[] {
      var r :| r in s.requesters;
    }
  }

  /** The calls made so far in a session under way can be continued to a word of the language. */
  lemma SessionInPrefix(run: seq<Sys>, acts: seq<Act>, i: nat) returns (rest: seq<Event>)
    requires IsRun(run, acts) && i < |run| && run[i].open
    ensures Complete(run[i].trace + rest)
  {
    InvInRun(run, acts, i);
    var s := run[i];
    if s.d.state == Idle || s.d.state == Starting {
      rest := EarlyRest(s.life.pc, s.trace);
    } else {
      rest := WorkingRest(s);
    }
  }

  lemma EarlyRest(pc: LifePc, trace: seq<Event>) returns (rest: seq<Event>)
    requires EarlyTrace(pc, trace)
    ensures Complete(trace + rest)
  {
    rest := if trace == [Prepared(true)] then [CleanupBegin, CleanupEnd]
            else if trace == [Prepared(true), CleanupBegin] then [CleanupEnd] else [];
    if trace != [Prepared(true)] && trace != [Prepared(true), CleanupBegin] {
      assert trace + rest == trace;
    }
  }

  lemma Reassociate(a: seq<Event>, b: seq<Event>, c: seq<Event>, d: seq<Event>)
    ensures a + (b + c + d) == a + b + c + d
  {
  }

  lemma RestOfWord(trace: seq<Event>, work: WorkPc) returns (rest: seq<Event>)
    requires WorkingWord(trace, [], WorkTrace(work))
    requires StopPart(Body(trace, 0)) in {[], [StopBegin], [StopBegin, StopEnd]}
    ensures Complete(trace + rest)
  {
    var stops := StopPart(Body(trace, 0));
    rest := RunRest(work) + StopRest(stops) + [CleanupBegin, CleanupEnd];
    FinishWord(trace, work);
    Reassociate(trace, RunRest(work), StopRest(stops), [CleanupBegin, CleanupEnd]);
  }

  lemma RestBeforeCleanup(s: Sys) returns (rest: seq<Event>)
    requires WorkingTrace(s) && CallbacksInv(s) && CleanupTrace(s.life) == []
    ensures Complete(s.trace + rest)
  {
    StopsSoFar(s, StopPart(Body(s.trace, 0)));
    rest := RestOfWord(s.trace, CurPc(s));
  }

  lemma WorkingRest(s: Sys) returns (rest: seq<Event>)
    requires Inv(s) && s.open && s.d.state != Idle && s.d.state != Starting
    ensures Complete(s.trace + rest)
  {
    if LifeAt(s, Cleanup(true)) {
      rest := [CleanupEnd];
      InCleanup(s);
      FinishInCleanup(s);
    } else if LifeAt(s, JoinReset) {
      rest := [];
      assert s.trace + rest == s.trace;
      JoinedSessionComplete(s);
    } else {
      rest := RestBeforeCleanup(s);
    }
  }

  // ---------------------------------------------------------------- callbacks in progress

  /** The threads between the increment and the decrement of mCallbacksInProgress. */
  function CallersInCallback(s: Sys): nat {
    |s.requesters| + if CallingBack(s.life) then 1 else 0
  }

  /** mCallbacksInProgress is the number of threads inside onStopRequested, never more than one; so each
    * decrement finds it positive; and it is zero from the wait in joinLocked to the reset, and while idle. */
  lemma CallbacksAreCounted(run: seq<Sys>, acts: seq<Act>, i: nat)
    requires IsRun(run, acts) && i < |run|
    ensures run[i].d.callbacks == CallersInCallback(run[i]) <= 1
    ensures CallingBack(run[i].life) || run[i].requesters != map[] ==> run[i].d.callbacks == 1
    ensures run[i].d.state == Idle || LifeAt(run[i], JoinReset) || (run[i].life.Held? && run[i].life.pc.Cleanup?) ==>
              run[i].d.callbacks == 0
    ensures LifeAt(run[i], JoinReset) || (run[i].life.Held? && run[i].life.pc.Cleanup?) ==> run[i].d.state == Exited
  {
    InvInRun(run, acts, i);
    if run[i].requesters != map[] {
      var r :| r in run[i].requesters;
      assert |run[i].requesters.Keys| > 0;
    }
  }

  // ---------------------------------------------------------------- start-up and stop requests

  /** run() is executed only in Running or Stopping, by the thread whose id is stored, with its worker; so inside
    * run() stop() and join() recognise the worker's own thread. No other worker thread is alive then. */
  lemma RunKnowsItsThread(run: seq<Sys>, acts: seq<Act>, i: nat, t: ThreadId)
    requires IsRun(run, acts) && i < |run| && t in run[i].threads && InRun(run[i].threads[t])
    ensures run[i].d.state == Running || run[i].d.state == Stopping
    ensures IsCurrentThread(run[i].d, t) && run[i].d.worker != NO_WORKER
    ensures forall u :: u in run[i].threads && u != t ==> run[i].threads[u] == Dead
  {
    InvInRun(run, acts, i);
  }

  /** While Running no stop request and no wake-up is pending; joinLocked never sees an idle object or an
    * incomplete start; taskEntry never finds a null worker. */
  lemma DeadBranches(run: seq<Sys>, acts: seq<Act>, i: nat)
    requires IsRun(run, acts) && i < |run|
    ensures run[i].d.state == Running ==> !run[i].d.stopRequested && !run[i].d.wakeupRequested
    ensures LifeAt(run[i], JoinLook) ==> run[i].d.state != Idle && run[i].d.state != Starting
    ensures LifeAt(run[i], JoinAwait) ==> run[i].d.worker != NO_WORKER
    ensures forall t :: t in run[i].threads && run[i].threads[t].Entering? ==> run[i].threads[t].worker != NO_WORKER
  {
    InvInRun(run, acts, i);
  }

  /** joinLocked joins the thread that this session created, which nobody has joined yet. */
  lemma JoinsTheThreadOnce(run: seq<Sys>, acts: seq<Act>, i: nat, id: ThreadId)
    requires IsRun(run, acts) && i < |run| && LifeAt(run[i], JoinThread(id))
    ensures id == run[i].cur && id in run[i].threads && run[i].unjoined
  {
    InvInRun(run, acts, i);
    JoinedIsCurrent(run[i], id);
  }

  lemma JoinedIsCurrent(s: Sys, id: ThreadId)
    requires Core(s) && LifeAt(s, JoinThread(id))
    ensures id == s.cur && id in s.threads && s.unjoined
  {
  }

  lemma DataKeepsRequest(d: Shared, op: Op, pc: LifePc, cur: ThreadId)
    requires d.stopRequested && d.state != Idle
    ensures LifeData(d, op, pc, cur).stopRequested || LifeData(d, op, pc, cur).state == Idle
  {
  }

  lemma RequestStays(s: Sys, a: Act)
    requires Enabled(s, a) && StateInv(s) && s.d.stopRequested && s.d.state != Idle
    ensures Do(s, a).d.stopRequested || Do(s, a).d.state == Idle
  {
    match a
    case LifeStep(_, _) => DataKeepsRequest(s.d, s.life.op, s.life.pc, s.cur);
    case _ =>
  }

  lemma {:induction false} RequestStaysInRun(run: seq<Sys>, acts: seq<Act>, i: nat, j: nat)
    requires IsRun(run, acts) && i <= j < |run| && run[i].d.stopRequested
    requires forall k :: i < k <= j ==> run[k].d.state != Idle
    ensures run[j].d.stopRequested
  {
    if i < j {
      RequestStaysInRun(run, acts, i, j - 1);
      NotIdle(run, acts, i, j - 1);
      RequestStays(run[j - 1], acts[j - 1]);
    }
  }

  lemma NotIdle(run: seq<Sys>, acts: seq<Act>, i: nat, k: nat)
    requires IsRun(run, acts) && i <= k < |run| && run[k].d.stopRequested
    ensures run[k].d.state != Idle && StateInv(run[k])
  {
    InvInRun(run, acts, k);
  }

  /** From a stop request on, at whatever point of start-up it comes, the session never is Running. */
  lemma StopRequestIsNeverLost(run: seq<Sys>, acts: seq<Act>, i: nat, j: nat)
    requires IsRun(run, acts) && i <= j < |run| && run[i].d.stopRequested
    requires forall k :: i < k <= j ==> run[k].d.state != Idle
    ensures run[j].d.stopRequested && run[j].d.state != Running
  {
    RequestStaysInRun(run, acts, i, j);
    InvInRun(run, acts, j);
  }

  /** requestStop that finds the object starting, running or stopping leaves a request standing. */
  lemma RequestIsRecorded(run: seq<Sys>, acts: seq<Act>, i: nat)
    requires IsRun(run, acts) && i < |acts|
    requires acts[i].RequestBy? || (acts[i].LifeStep? && LifeAt(run[i], RequestStop))
    requires run[i].d.state != Idle && run[i].d.state != Exited
    ensures run[i + 1].d.stopRequested && run[i + 1].d.state in {Starting, Stopping}
  {
  }
}
