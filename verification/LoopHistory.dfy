/** How the loop thread has got to where it is, in every run: what a handler was asked, what became of its answer,
  * how long the loop sleeps and why it ends. */
module LoopHistory {
  import opened TimerOrder
  import opened TimerProtocol
  import opened TimerTheorems
  import opened MainLoopWakeups

  /** The step by which the loop thread came to its position; since then it has not moved. */
  lemma {:induction false} EnteredAt(run: seq<Sys>, acts: seq<Act>, i: nat) returns (j: nat)
    requires IsRun(run, acts) && i < |run| && run[i].loop != GetFunction(false)
    ensures j < i && acts[j].Loop? && run[j + 1].loop == run[i].loop
    ensures forall k :: j < k <= i ==> run[k].loop == run[i].loop
  {
    if acts[i - 1].Loop? {
      j := i - 1;
    } else {
      OthersLeaveLoop(run[i - 1], acts[i - 1]);
      j := EnteredAt(run, acts, i - 1);
    }
  }

  // ---------------------------------------------------------------- an execution

  /** The step by which the handler gave its answer, or by which it turned out that there is no handler. */
  predicate Answered(s: Sys, a: Act, t: TimerId, keep: bool) {
    && a.Loop? && t in s.timers
    && ((s.loop == Callback(t) && keep == a.c.yes) || (s.loop == ReadHandler(t) && !s.timers[t].hasHandler && !keep))
  }

  /** The step by which the settings were read that decide, given that answer. */
  predicate Decided(s: Sys, a: Act, t: TimerId, answer: bool, keep: bool, interval: nat) {
    && a.Loop? && t in s.timers && s.loop == ReadConfig(t, answer) && interval == s.timers[t].interval
    && (keep <==> answer && s.timers[t].repeating && interval != INFINITE && s.timers[t].hasHandler)
  }

  /** The step by which the stop request was looked at. */
  predicate LookedAtStop(s: Sys, a: Act, t: TimerId, keep: bool, interval: nat, requested: bool) {
    a.Loop? && t in s.timers && s.loop == CheckStop(t, keep, interval) && requested == s.timers[t].stopRequested
  }

  /** The loop's way from the handler to the verdict on timer `t`. */
  ghost predicate Judged(run: seq<Sys>, acts: seq<Act>, i: nat, t: TimerId, answer: bool, keep: bool, interval: nat,
                         requested: bool)
    requires |run| == |acts| + 1 && i < |run|
  {
    exists a, b, d :: 0 <= a < b < d < i
      && Answered(run[a], acts[a], t, answer) && Decided(run[b], acts[b], t, answer, keep, interval)
      && LookedAtStop(run[d], acts[d], t, keep, interval, requested)
      && forall k :: a < k < i ==> run[k].loop in {ReadConfig(t, answer), CheckStop(t, keep, interval), run[i].loop}
  }

  /** A loop step to a position of an execution comes from the position before it. */
  lemma ComesFrom(s: Sys, a: Act) returns (t: TimerId)
    requires Closed(s) && Enabled(s, a) && a.Loop? && LoopTimer(Do(s, a).loop) >= 0 && !Do(s, a).loop.TakeCas?
    ensures t in s.timers && LoopTimer(s.loop) == t && Do(s, a).loop == HoldingNext(s.loop, s.timers[t], a.c)
  {
    if LoopTimer(s.loop) < 0 {
      ElsewhereTakesAtMost(s, a.c);
    }
    t := LoopTimer(s.loop);
  }

  lemma ElsewhereTakesAtMost(s: Sys, c: Choice)
    requires Closed(s) && LoopEnabled(s, c) && LoopTimer(s.loop) < 0
    ensures LoopTimer(LoopStep(s, c).loop) < 0 || LoopStep(s, c).loop.TakeCas?
  {
  }

  lemma IntoReadConfig(s: Sys, a: Act, t: TimerId, answer: bool)
    requires Closed(s) && Enabled(s, a) && a.Loop? && Do(s, a).loop == ReadConfig(t, answer)
    ensures Answered(s, a, t, answer)
  {
    var u := ComesFrom(s, a);
  }

  lemma IntoCheckStop(s: Sys, a: Act, t: TimerId, keep: bool, interval: nat)
    requires Closed(s) && Enabled(s, a) && a.Loop? && Do(s, a).loop == CheckStop(t, keep, interval)
    ensures s.loop.ReadConfig? && Decided(s, a, t, s.loop.keep, keep, interval)
  {
    var u := ComesFrom(s, a);
  }

  lemma IntoRearm(s: Sys, a: Act, t: TimerId, interval: nat)
    requires Closed(s) && Enabled(s, a) && a.Loop? && Do(s, a).loop == Rearm(t, interval)
    ensures LookedAtStop(s, a, t, true, interval, false)
  {
    var u := ComesFrom(s, a);
  }

  lemma IntoEndStopped(s: Sys, a: Act, t: TimerId)
    requires Closed(s) && Enabled(s, a) && a.Loop? && Do(s, a).loop == EndStopped(t)
    ensures s.loop.CheckStop? && t in s.timers
    ensures LookedAtStop(s, a, t, s.loop.keep, s.loop.interval, s.timers[t].stopRequested)
    ensures !s.loop.keep || s.timers[t].stopRequested
  {
    var u := ComesFrom(s, a);
  }

  lemma JudgedFrom(run: seq<Sys>, acts: seq<Act>, i: nat, d: nat, t: TimerId, keep: bool, interval: nat,
                   requested: bool)
    returns (answer: bool)
    requires IsRun(run, acts) && d < i < |run| && LookedAtStop(run[d], acts[d], t, keep, interval, requested)
    requires forall k :: d < k <= i ==> run[k].loop == run[i].loop
    ensures Judged(run, acts, i, t, answer, keep, interval, requested)
  {
    var b := EnteredAt(run, acts, d);
    IntoCheckStop(run[b], acts[b], t, keep, interval);
    answer := run[b].loop.keep;
    var a := EnteredAt(run, acts, b);
    IntoReadConfig(run[a], acts[a], t, answer);
  }

  /** A timer is re-armed only after its handler was called and answered true, with the settings read then
    * repeating, a finite interval and a handler, and no stop request at the look before; the interval is that one. */
  lemma RearmedOnlyIfKept(run: seq<Sys>, acts: seq<Act>, i: nat, t: TimerId, interval: nat)
    requires IsRun(run, acts) && i < |run| && run[i].loop == Rearm(t, interval)
    ensures Judged(run, acts, i, t, true, true, interval, false)
  {
    var d := EnteredAt(run, acts, i);
    IntoRearm(run[d], acts[d], t, interval);
    var answer := JudgedFrom(run, acts, i, d, t, true, interval, false);
    assert answer;
  }

  /** An execution ends Stopped only if one of these was otherwise. */
  lemma StoppedOnlyIfNotKept(run: seq<Sys>, acts: seq<Act>, i: nat, t: TimerId)
    returns (answer: bool, keep: bool, interval: nat, requested: bool)
    requires IsRun(run, acts) && i < |run| && run[i].loop == EndStopped(t)
    ensures Judged(run, acts, i, t, answer, keep, interval, requested) && (requested || !keep)
  {
    var d := EnteredAt(run, acts, i);
    IntoEndStopped(run[d], acts[d], t);
    keep, interval, requested := run[d].loop.keep, run[d].loop.interval, run[d].timers[t].stopRequested;
    answer := JudgedFrom(run, acts, i, d, t, keep, interval, requested);
  }

  /** A callback is called only for a timer that the loop has just taken, Executing, and whose handler it has read. */
  lemma CalledWithHandler(run: seq<Sys>, acts: seq<Act>, i: nat, t: TimerId)
    requires IsRun(run, acts) && i < |run| && run[i].loop == Callback(t)
    ensures exists j :: 0 <= j < i && acts[j].Loop? && run[j].loop == ReadHandler(t)
              && t in run[j].timers && run[j].timers[t].hasHandler && run[j].timers[t].state == Executing
              && forall k :: j < k <= i ==> run[k].loop == Callback(t)
  {
    var j := EnteredAt(run, acts, i);
    TimersInvInRun(run, acts, j);
    IntoCallback(run[j], acts[j], t);
  }

  lemma IntoCallback(s: Sys, a: Act, t: TimerId)
    requires TimersInv(s) && Enabled(s, a) && a.Loop? && Do(s, a).loop == Callback(t)
    ensures s.loop == ReadHandler(t) && t in s.timers && s.timers[t].hasHandler && s.timers[t].state == Executing
  {
    var u := ComesFrom(s, a);
    assert Placed(s, u);
  }

  /** The step of requeueFromLoop by which its first or its second look has found no request. */
  predicate LookFoundNone(s: Sys, a: Act, t: TimerId, first: bool) {
    a.Loop? && s.loop == (if first then RqCheck(t) else RqRecheck(t)) && t in s.timers && !s.timers[t].stopRequested
  }

  /** From step `j` to state `i` the loop has listed the timer and come to its second look. */
  ghost predicate Listing(run: seq<Sys>, j: nat, i: nat, t: TimerId)
    requires i < |run|
  {
    forall k :: j < k <= i ==> run[k].loop in {RqList(t), RqListWake(t), RqRecheck(t), RqQueued(t)}
  }

  lemma ListedAfterLook(run: seq<Sys>, acts: seq<Act>, i: nat, t: TimerId) returns (a: nat)
    requires IsRun(run, acts) && i < |run| && run[i].loop == RqList(t)
    ensures a < i && LookFoundNone(run[a], acts[a], t, true) && Listing(run, a, i, t)
  {
    a := EnteredAt(run, acts, i);
    var u := ComesFrom(run[a], acts[a]);
  }

  lemma RecheckedAfterListing(run: seq<Sys>, acts: seq<Act>, i: nat, t: TimerId) returns (a: nat)
    requires IsRun(run, acts) && i < |run| && run[i].loop == RqRecheck(t)
    ensures a < i && run[a].loop == RqList(t) && Listing(run, a, i, t)
  {
    var b := EnteredAt(run, acts, i);
    var u := ComesFrom(run[b], acts[b]);
    a := EnteredAt(run, acts, b);
    u := ComesFrom(run[a], acts[a]);
  }

  lemma QueuedAfterRecheck(run: seq<Sys>, acts: seq<Act>, i: nat, t: TimerId) returns (b: nat)
    requires IsRun(run, acts) && i < |run| && run[i].loop == RqQueued(t)
    ensures b < i && LookFoundNone(run[b], acts[b], t, false) && Listing(run, b, i, t)
  {
    b := EnteredAt(run, acts, i);
    var u := ComesFrom(run[b], acts[b]);
  }

  /** A timer is queued again only if both looks of requeueFromLoop at the stop request, before and after listing it,
    * have found none. */
  lemma QueuedOnlyIfNotStopped(run: seq<Sys>, acts: seq<Act>, i: nat, t: TimerId) returns (a: nat, b: nat)
    requires IsRun(run, acts) && i < |run| && run[i].loop == RqQueued(t)
    ensures a < b < i && LookFoundNone(run[a], acts[a], t, true) && LookFoundNone(run[b], acts[b], t, false)
    ensures Listing(run, a, i, t)
  {
    b := QueuedAfterRecheck(run, acts, i, t);
    var m := RecheckedAfterListing(run, acts, b, t);
    a := ListedAfterLook(run, acts, m, t);
  }

  /** The step by which one of them has found a request. */
  predicate LookFoundOne(s: Sys, a: Act, t: TimerId) {
    a.Loop? && (s.loop == RqCheck(t) || s.loop == RqRecheck(t)) && t in s.timers && s.timers[t].stopRequested
  }

  lemma UnlistedAfterRecheck(run: seq<Sys>, acts: seq<Act>, i: nat, t: TimerId) returns (a: nat)
    requires IsRun(run, acts) && i < |run| && run[i].loop == RqUnlistWake(t)
    ensures a < i && LookFoundOne(run[a], acts[a], t)
    ensures forall k :: a < k <= i ==> run[k].loop in {RqUnlist(t), RqUnlistWake(t), RqStopped(t)}
  {
    var b := EnteredAt(run, acts, i);
    var u := ComesFrom(run[b], acts[b]);
    a := EnteredAt(run, acts, b);
    u := ComesFrom(run[a], acts[a]);
  }

  /** requeueFromLoop ends Stopped only after one of its looks has found a request. */
  lemma RequeueStopsOnlyIfAsked(run: seq<Sys>, acts: seq<Act>, i: nat, t: TimerId) returns (a: nat)
    requires IsRun(run, acts) && i < |run| && run[i].loop == RqStopped(t)
    ensures a < i && LookFoundOne(run[a], acts[a], t)
    ensures forall k :: a < k <= i ==> run[k].loop in {RqUnlist(t), RqUnlistWake(t), RqStopped(t)}
  {
    a := EnteredAt(run, acts, i);
    var u := ComesFrom(run[a], acts[a]);
    if run[a].loop == RqUnlistWake(t) {
      a := UnlistedAfterRecheck(run, acts, a, t);
    }
  }

  // ---------------------------------------------------------------- the pipe and the settings

  /** Bytes leave the pipe only at its front and only when the loop drains it; everybody else at most adds one. */
  lemma PipeIsFifo(run: seq<Sys>, acts: seq<Act>, i: nat)
    requires IsRun(run, acts) && i < |acts|
    ensures if acts[i].Loop? && run[i].loop.Drain? && run[i].pipe != [] then run[i + 1].pipe == run[i].pipe[1..]
            else run[i].pipe <= run[i + 1].pipe && |run[i + 1].pipe| <= |run[i].pipe| + 1
  {
    PipeStep(run[i], acts[i]);
  }

  lemma PipeStep(s: Sys, a: Act)
    requires Closed(s) && Enabled(s, a)
    ensures if a.Loop? && s.loop.Drain? && s.pipe != [] then Do(s, a).pipe == s.pipe[1..]
            else s.pipe <= Do(s, a).pipe && |Do(s, a).pipe| <= |s.pipe| + 1
  {
    if a.Ctl? {
      CtlPipe(s, a.t, a.c);
    } else if a.Loop? {
      LoopPipe(s, a.c);
    }
  }

  lemma CtlPipe(s: Sys, t: TimerId, c: Choice)
    requires Closed(s) && CtlEnabled(s, t, c)
    ensures s.pipe <= CtlStep(s, t, c).pipe && |CtlStep(s, t, c).pipe| <= |s.pipe| + 1
  {
  }

  lemma LoopPipe(s: Sys, c: Choice)
    requires Closed(s) && LoopEnabled(s, c)
    ensures if s.loop.Drain? && s.pipe != [] then LoopStep(s, c).pipe == s.pipe[1..]
            else s.pipe <= LoopStep(s, c).pipe && |LoopStep(s, c).pipe| <= |s.pipe| + 1
  {
  }

  /** Whoever lists or unlists a timer leaves a byte in the pipe behind its section. */
  lemma SectionsWake(run: seq<Sys>, acts: seq<Act>, i: nat, t: TimerId)
    requires IsRun(run, acts) && i < |acts| && t in run[i].timers
    ensures acts[i].Ctl? && acts[i].t == t ==>
              CtlAt(run[i].timers[t], ListWake) || CtlAt(run[i].timers[t], UnlistWake) ==> run[i + 1].pipe != []
    ensures acts[i].Loop? && run[i].loop in {RqListWake(t), RqUnlistWake(t)} ==> run[i + 1].pipe != []
  {
  }

  /** The setters change the settings they are given and nothing else, and are open until the destructor is over. */
  lemma SettersAnswer(run: seq<Sys>, acts: seq<Act>, i: nat, t: TimerId, interval: nat, repeating: bool, handler: bool)
    requires IsRun(run, acts) && i < |run| && t in run[i].timers
    ensures Closed(run[i])
    ensures Enabled(run[i], Configure(t, interval, repeating, handler)) <==> !run[i].timers[t].control.Destroyed?
    ensures i < |acts| && acts[i] == Configure(t, interval, repeating, handler) ==>
              && t in run[i + 1].timers && run[i + 1] == run[i].(timers := run[i + 1].timers)
              && (forall u :: u in run[i].timers && u != t ==>
                    u in run[i + 1].timers && run[i + 1].timers[u] == run[i].timers[u])
              && run[i + 1].timers[t] == run[i].timers[t].(interval := run[i + 1].timers[t].interval,
                                                           repeating := run[i + 1].timers[t].repeating,
                                                           hasHandler := run[i + 1].timers[t].hasHandler)
              && run[i + 1].timers[t].interval == interval && run[i + 1].timers[t].repeating == repeating
              && run[i + 1].timers[t].hasHandler == handler
  {
    TimersInvInRun(run, acts, i);
  }

  /** The loop thread waits for nothing but a post that holds mFunctionLock and is about to write its byte, and in
    * epoll_wait for at most its timeout; while a post holds that lock no function is taken. */
  lemma LoopIsNeverStuck(run: seq<Sys>, acts: seq<Act>, i: nat)
    requires IsRun(run, acts) && i < |run|
    ensures Closed(run[i])
    ensures !(exists c :: LoopEnabled(run[i], c)) <==>
              run[i].loop.Exited? || (run[i].loop.GetFunction? && run[i].poster.Waking?)
    ensures run[i].poster.Waking? ==> Enabled(run[i], PostWake)
  {
    TimersInvInRun(run, acts, i);
    LoopMayStep(run[i], Choice(0, false, false));
  }

  lemma LoopMayStep(s: Sys, c: Choice)
    requires TimersInv(s) && c == Choice(0, false, false)
    ensures LoopEnabled(s, c) <==> !s.loop.Exited? && !(s.loop.GetFunction? && s.poster.Waking?)
  {
  }

  // ---------------------------------------------------------------- sleeping

  /** When the loop goes to sleep, its timeout is the time to the earliest expiry, or 10 s if that is later or there
    * is no timer: it is neither too long nor too short. */
  lemma SleepsExactly(run: seq<Sys>, acts: seq<Act>, i: nat)
    requires IsRun(run, acts) && i < |acts| && acts[i].Loop? && !run[i].loop.Epoll? && run[i + 1].loop.Epoll?
    ensures Closed(run[i]) && run[i + 1].loop.at == acts[i].c.clock
    ensures var at, wait := run[i + 1].loop.at, run[i + 1].loop.wait;
            && (forall t :: t in run[i].list ==> run[i].timers[t].expiry >= at + wait)
            && (wait == 10_000 || exists t :: t in run[i].list && run[i].timers[t].expiry == at + wait)
            && 0 < wait <= 10_000
  {
    TimersInvInRun(run, acts, i);
    SleepStepExact(run[i], acts[i].c);
  }

  lemma SleepStepExact(s: Sys, c: Choice)
    requires TimersInv(s) && LoopEnabled(s, c) && !s.loop.Epoll? && LoopStep(s, c).loop.Epoll?
    ensures LoopStep(s, c).loop.at == c.clock
    ensures var at, wait := LoopStep(s, c).loop.at, LoopStep(s, c).loop.wait;
            && (forall t :: t in s.list ==> s.timers[t].expiry >= at + wait)
            && (wait == 10_000 || exists t :: t in s.list && s.timers[t].expiry == at + wait)
            && 0 < wait <= 10_000
  {
    FrontIsEarliest(s);
    if !s.loop.Timeout? {
      NoOtherWayToSleep(s, c);
    } else if s.list != [] {
      assert s.list[0] in s.list;
    }
  }

  /** If anything is due the loop takes another turn instead. */
  lemma SleepsIfNothingDue(run: seq<Sys>, acts: seq<Act>, i: nat)
    requires IsRun(run, acts) && i < |acts| && acts[i].Loop? && run[i].loop == Timeout
    ensures Closed(run[i])
    ensures if exists t :: t in run[i].list && run[i].timers[t].expiry <= acts[i].c.clock
            then run[i + 1].loop == Take else run[i + 1].loop.Epoll?
  {
    TimersInvInRun(run, acts, i);
    FrontIsEarliest(run[i]);
    if run[i].list != [] {
      assert run[i].list[0] in run[i].list;
    }
  }

  // ---------------------------------------------------------------- terminating

  /** A Terminate command comes from a terminate() that has stored its flag. */
  predicate CommandsFollowFlag(s: Sys) {
    && (Terminate in s.pipe || s.terminators != {} ==> s.terminated)
    && ((s.loop.Drain? || s.loop.CheckTerminated?) && s.loop.sawTerminate ==> s.terminated)
  }

  lemma SendAdds(pipe: seq<Command>, c: Command)
    ensures forall d :: d in Send(pipe, c) ==> d in pipe || d == c
  {
  }

  lemma LoopKeepsFlag(s: Sys, c: Choice)
    requires Closed(s) && LoopEnabled(s, c) && CommandsFollowFlag(s)
    ensures CommandsFollowFlag(LoopStep(s, c))
  {
    SendAdds(s.pipe, Wakeup);
  }

  lemma StepKeepsFlag(s: Sys, a: Act)
    requires Closed(s) && Enabled(s, a) && CommandsFollowFlag(s)
    ensures CommandsFollowFlag(Do(s, a))
  {
    SendAdds(s.pipe, Wakeup);
    SendAdds(s.pipe, Terminate);
    if a.Loop? {
      LoopKeepsFlag(s, a.c);
    }
  }

  lemma {:induction false} FlagInRun(run: seq<Sys>, acts: seq<Act>, i: nat)
    requires IsRun(run, acts) && i < |run|
    ensures CommandsFollowFlag(run[i])
  {
    if i > 0 {
      FlagInRun(run, acts, i - 1);
      StepKeepsFlag(run[i - 1], acts[i - 1]);
    }
  }

  /** At its check the loop ends if and only if somebody has called terminate(). */
  lemma CheckEndsIff(run: seq<Sys>, acts: seq<Act>, i: nat)
    requires IsRun(run, acts) && i < |acts| && acts[i].Loop? && run[i].loop.CheckTerminated?
    ensures run[i + 1].loop == if run[i].terminated then Exited else GetFunction(false)
  {
    FlagInRun(run, acts, i);
  }

  /** The loop has ended only because of a terminate() or of an error of epoll_wait. */
  lemma EndsOnlyIf(run: seq<Sys>, acts: seq<Act>, i: nat)
    requires IsRun(run, acts) && i < |run| && run[i].loop.Exited?
    ensures exists j :: 0 <= j < i && acts[j].Loop?
              && ((run[j].loop.CheckTerminated? && run[j].terminated)
                  || (run[j].loop.Epoll? && !acts[j].c.yes && acts[j].c.other))
  {
    var j := EnteredAt(run, acts, i);
    FlagInRun(run, acts, j);
    IntoExited(run[j], acts[j]);
  }

  lemma IntoExited(s: Sys, a: Act)
    requires Closed(s) && Enabled(s, a) && a.Loop? && Do(s, a).loop.Exited? && CommandsFollowFlag(s)
    ensures (s.loop.CheckTerminated? && s.terminated) || (s.loop.Epoll? && !a.c.yes && a.c.other)
  {
  }
}
