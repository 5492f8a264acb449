/** The wake-up pipe of MainLoop: when the loop may sleep, and what becomes of posted functions. */
module MainLoopWakeups {
  import opened TimerOrder
  import opened TimerProtocol
  import TimerTheorems

  /** From the point where runFunctions saw the queue empty until epoll_wait returns. */
  predicate PastFunctions(l: LoopPc) {
    !l.GetFunction? && !l.RunFunction? && !l.Drain? && !l.CheckTerminated? && !l.Exited?
  }

  function InHand(l: LoopPc): seq<TaskId> {
    if l.RunFunction? then [l.f] else []
  }

  /** A listed timer that expires before the sleep ends has a byte in the pipe, or the `start` that
    * listed it is still between its insertion and its wakeup(). */
  ghost predicate SleepsSoundly(s: Sys)
    requires Closed(s)
  {
    s.loop.Epoll? ==>
      && 0 < s.loop.wait <= WAIT_TIME_MS && s.loop.at <= s.now
      && forall t :: t in s.list ==>
           s.timers[t].expiry >= s.loop.at + s.loop.wait || s.pipe != [] || CtlAt(s.timers[t], ListWake)
  }

  predicate QueueInv(s: Sys) {
    && s.accepted == s.ran + InHand(s.loop) + s.functions
    && |s.functions| <= MAX_FUNCTIONS
    && (PastFunctions(s.loop) && s.functions != [] ==> s.pipe != [] || s.poster.Waking?)
  }

  /** The loop has exited, or is on its way to the check of mTerminated, or a byte keeps it from sleeping. */
  predicate WillCheck(s: Sys) {
    s.loop.Exited? || s.loop.Drain? || s.loop.CheckTerminated? || s.pipe != []
  }

  predicate TerminateInv(s: Sys) {
    && (s.terminators != {} ==> s.terminated)
    && (s.terminated ==> WillCheck(s) || s.terminators != {})
  }

  ghost predicate WakeInv(s: Sys) {
    TimersInv(s) && SleepsSoundly(s) && QueueInv(s) && TerminateInv(s) && |s.pipe| <= PIPE_CAPACITY
  }

  /** Only the loop empties the pipe, and only while draining it. */
  lemma PipeKeepsItsByte(s: Sys, a: Act)
    requires Closed(s) && Enabled(s, a) && !(a.Loop? && s.loop.Drain?)
    ensures s.pipe != [] ==> Do(s, a).pipe != []
  {
  }

  lemma SleepBegins(s: Sys, c: Choice)
    requires TimersInv(s) && LoopEnabled(s, c) && s.loop.Timeout?
    ensures Closed(LoopStep(s, c)) && SleepsSoundly(LoopStep(s, c))
  {
    FrontIsEarliest(s);
  }

  lemma OthersKeepSleep(s: Sys, a: Act)
    requires TimersInv(s) && SleepsSoundly(s) && Enabled(s, a) && !a.Loop? && s.loop.Epoll?
    ensures Closed(Do(s, a)) && SleepsSoundly(Do(s, a))
  {
    var s' := Do(s, a);
    StepKeepsTimers(s, a);
    PipeKeepsItsByte(s, a);
    TimerTheorems.NowGrows(s, a);
    assert s'.loop == s.loop;
    forall t | t in s'.list
      ensures s'.timers[t].expiry >= s.loop.at + s.loop.wait || s'.pipe != [] || CtlAt(s'.timers[t], ListWake)
    {
      assert Placed(s', t);
      if t in s.timers {
        ListedKeepsSleep(s, a, t);
      }
    }
  }

  lemma ListedKeepsSleep(s: Sys, a: Act, t: TimerId)
    requires TimersInv(s) && Enabled(s, a) && !a.Loop? && t in s.timers && t in Do(s, a).list
    ensures t in Do(s, a).timers
    ensures CtlAt(Do(s, a).timers[t], ListWake) || Do(s, a).pipe != []
            || (t in s.list && Do(s, a).timers[t].expiry == s.timers[t].expiry && !CtlAt(s.timers[t], ListWake))
  {
    assert Placed(s, t);
    StepEffect(s, a, t);
    if a.Ctl? && a.t == t && s.timers[t].control.pc.ListWake? {
      assert Do(s, a).pipe == Send(s.pipe, Wakeup);
    }
  }

  lemma StepKeepsSleep(s: Sys, a: Act)
    requires TimersInv(s) && SleepsSoundly(s) && Enabled(s, a)
    ensures Closed(Do(s, a)) && SleepsSoundly(Do(s, a))
  {
    StepKeepsTimers(s, a);
    if a.Loop? {
      if s.loop.Timeout? {
        SleepBegins(s, a.c);
      } else {
        NoOtherWayToSleep(s, a.c);
      }
    } else if s.loop.Epoll? {
      OthersKeepSleep(s, a);
    } else {
      TimerTheorems.OthersLeaveLoop(s, a);
    }
  }

  lemma NoOtherWayToSleep(s: Sys, c: Choice)
    requires Closed(s) && LoopEnabled(s, c) && !s.loop.Timeout?
    ensures !LoopStep(s, c).loop.Epoll?
  {
  }

  lemma FrontIsEarliest(s: Sys)
    requires TimersInv(s)
    ensures forall t :: t in s.list ==> s.timers[s.list[0]].expiry <= s.timers[t].expiry
  {
  }

  /** What the queue cares about, unchanged but for bytes added to the pipe. */
  predicate QueueUntouched(s: Sys, s': Sys) {
    && s'.functions == s.functions && s'.accepted == s.accepted && s'.ran == s.ran
    && s'.poster == s.poster && (s.pipe != [] ==> s'.pipe != [])
    && PastFunctions(s'.loop) == PastFunctions(s.loop) && InHand(s'.loop) == InHand(s.loop)
  }

  lemma ControlLeavesQueue(s: Sys, t: TimerId, c: Choice)
    requires Closed(s) && CtlEnabled(s, t, c)
    ensures QueueUntouched(s, CtlStep(s, t, c))
  {
  }

  lemma HoldingLeavesQueue(s: Sys, c: Choice)
    requires Closed(s) && LoopEnabled(s, c) && LoopTimer(s.loop) >= 0
    ensures QueueUntouched(s, LoopStep(s, c))
  {
  }

  lemma UntouchedKeepsQueue(s: Sys, s': Sys)
    requires QueueInv(s) && QueueUntouched(s, s')
    ensures QueueInv(s')
  {
  }

  lemma LoopKeepsQueue(s: Sys, c: Choice)
    requires QueueInv(s) && Closed(s) && LoopEnabled(s, c) && LoopTimer(s.loop) == -1
    ensures QueueInv(LoopStep(s, c))
  {
  }

  lemma StepKeepsQueue(s: Sys, a: Act)
    requires Closed(s) && QueueInv(s) && Enabled(s, a)
    ensures QueueInv(Do(s, a))
  {
    if a.Ctl? {
      ControlLeavesQueue(s, a.t, a.c);
      UntouchedKeepsQueue(s, Do(s, a));
    } else if a.Loop? {
      if LoopTimer(s.loop) >= 0 {
        HoldingLeavesQueue(s, a.c);
        UntouchedKeepsQueue(s, Do(s, a));
      } else {
        LoopKeepsQueue(s, a.c);
      }
    }
  }

  lemma StepKeepsTerminate(s: Sys, a: Act)
    requires Closed(s) && TerminateInv(s) && Enabled(s, a)
    ensures TerminateInv(Do(s, a))
  {
  }

  lemma StepKeepsPipeBound(s: Sys, a: Act)
    requires Closed(s) && |s.pipe| <= PIPE_CAPACITY && Enabled(s, a)
    ensures |Do(s, a).pipe| <= PIPE_CAPACITY
  {
  }

  lemma StepKeepsWake(s: Sys, a: Act)
    requires WakeInv(s) && Enabled(s, a)
    ensures WakeInv(Do(s, a))
  {
    StepKeepsTimers(s, a);
    StepKeepsSleep(s, a);
    StepKeepsQueue(s, a);
    StepKeepsTerminate(s, a);
    StepKeepsPipeBound(s, a);
  }

  ghost predicate WakesOn(run: seq<Sys>, k: nat) {
    k + 1 < |run| && (WakeInv(run[k]) ==> WakeInv(run[k + 1]))
  }

  lemma {:induction false} WakeCarries(run: seq<Sys>, i: nat)
    requires i < |run| && WakeInv(run[0]) && forall k :: 0 <= k < i ==> WakesOn(run, k)
    ensures WakeInv(run[i])
  {
    if i > 0 {
      WakeCarries(run, i - 1);
      assert WakesOn(run, i - 1);
    }
  }

  lemma WakeInvInRun(run: seq<Sys>, acts: seq<Act>, i: nat)
    requires IsRun(run, acts) && i < |run|
    ensures WakeInv(run[i])
  {
    forall k | 0 <= k < i ensures WakesOn(run, k) {
      if WakeInv(run[k]) {
        StepKeepsWake(run[k], acts[k]);
      }
    }
    WakeCarries(run, i);
  }

  /** Inside epoll_wait(timeout): 0 < timeout <= 10000, and every listed timer expires no earlier than the timeout,
    * counted from when it was computed, or there is a wake-up in the pipe or one about to be sent for it. */
  lemma NeverOversleeps(run: seq<Sys>, acts: seq<Act>, i: nat)
    requires IsRun(run, acts) && i < |run| && run[i].loop.Epoll?
    ensures Closed(run[i]) && 0 < run[i].loop.wait <= 10_000
    ensures run[i].loop.at <= run[i].now
    ensures forall t :: t in run[i].list ==>
              || run[i].timers[t].expiry >= run[i].loop.at + run[i].loop.wait
              || run[i].pipe != []
              || CtlAt(run[i].timers[t], ListWake)
  {
    WakeInvInRun(run, acts, i);
  }

  /** Every accepted task has run, is being run, or is queued: once each and in acceptance order. */
  lemma PostedRunOnceInOrder(run: seq<Sys>, acts: seq<Act>, i: nat)
    requires IsRun(run, acts) && i < |run|
    ensures run[i].accepted == run[i].ran + InHand(run[i].loop) + run[i].functions
    ensures |run[i].functions| <= 128
  {
    WakeInvInRun(run, acts, i);
  }

  /** The loop does not sleep over a queued function: a byte waits in the pipe, or a `post` that still holds
    * mFunctionLock is about to write one. */
  lemma PostWakesTheLoop(run: seq<Sys>, acts: seq<Act>, i: nat)
    requires IsRun(run, acts) && i < |run| && run[i].loop.Epoll? && run[i].functions != []
    ensures run[i].pipe != [] || run[i].poster.Waking?
  {
    WakeInvInRun(run, acts, i);
  }

  predicate Seen(s: Sys) {
    s.terminated && WillCheck(s)
  }

  lemma SendIsSeen(s: Sys, a: Act)
    requires Closed(s) && TerminateInv(s) && Enabled(s, a) && a.TerminateSend?
    ensures Seen(Do(s, a))
  {
  }

  lemma StepKeepsSeen(s: Sys, a: Act)
    requires Closed(s) && Enabled(s, a) && Seen(s)
    ensures Seen(Do(s, a))
  {
  }

  ghost predicate SeenOn(run: seq<Sys>, k: nat) {
    k + 1 < |run| && (Seen(run[k]) ==> Seen(run[k + 1]))
  }

  lemma {:induction false} SeenCarries(run: seq<Sys>, i: nat, j: nat)
    requires i <= j < |run| && Seen(run[i]) && forall k :: i <= k < j ==> SeenOn(run, k)
    ensures Seen(run[j])
  {
    if i < j {
      SeenCarries(run, i, j - 1);
      assert SeenOn(run, j - 1);
    }
  }

  /** From the end of a terminate() on, whatever other calls are under way, the loop has exited, or is on its way to
    * the check of mTerminated, or a byte makes epoll_wait return to it. */
  lemma TerminateIsSeen(run: seq<Sys>, acts: seq<Act>, i: nat, j: nat)
    requires IsRun(run, acts) && i < |acts| && i < j < |run| && acts[i].TerminateSend?
    ensures run[j].loop.Exited? || run[j].loop.Drain? || run[j].loop.CheckTerminated? || run[j].pipe != []
    ensures run[j].terminated
  {
    WakeInvInRun(run, acts, i);
    SendIsSeen(run[i], acts[i]);
    forall k: nat | i + 1 <= k < j ensures SeenOn(run, k) {
      if Seen(run[k]) {
        StepKeepsSeen(run[k], acts[k]);
      }
    }
    SeenCarries(run, i + 1, j);
  }
}
