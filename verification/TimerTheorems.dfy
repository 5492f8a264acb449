/** What holds in every run of the timer protocol. */
module TimerTheorems {
  import opened TimerOrder
  import opened TimerProtocol

  // ---------------------------------------------------------------- state and place agree

  lemma {:induction false} TimersInvInRun(run: seq<Sys>, acts: seq<Act>, i: nat)
    requires IsRun(run, acts) && i < |run|
    ensures TimersInv(run[i])
  {
    if i > 0 {
      TimersInvInRun(run, acts, i - 1);
      StepKeepsTimers(run[i - 1], acts[i - 1]);
    }
  }

  /** State, list and loop agree on every timer; only the loop's timer can be executing or pending. */
  lemma StateTellsThePlace(run: seq<Sys>, acts: seq<Act>, i: nat, t: TimerId)
    requires IsRun(run, acts) && i < |run| && t in run[i].timers
    ensures var s, r := run[i], run[i].timers[t];
            && (r.state == Queued ==> (t in s.list <==> !CtlAt(r, List)))
            && (r.state == Executing || r.state == RequeuePending ==> LoopTimer(s.loop) == t)
            && (r.state == Stopped && t in s.list ==> CtlAt(r, FlagStop) || CtlAt(r, Unlist))
            && (multiset(s.list)[t] <= 1)
    ensures forall u :: u in run[i].timers && u != t && run[i].timers[t].state in {Executing, RequeuePending} ==>
              run[i].timers[u].state !in {Executing, RequeuePending}
  {
    TimersInvInRun(run, acts, i);
    var s := run[i];
    assert Placed(s, t);
    assert forall u :: u in s.timers ==> Placed(s, u);
    DistinctListsOnce(s.list, t);
  }

  lemma {:induction false} DistinctListsOnce(list: seq<TimerId>, t: TimerId)
    requires Distinct(list)
    ensures multiset(list)[t] <= 1
  {
    if list != [] {
      assert list == [list[0]] + list[1..];
      assert forall i, j :: 0 <= i < j < |list[1..]| ==> list[1..][i] == list[i + 1] && list[1..][j] == list[j + 1];
      DistinctListsOnce(list[1..], t);
    }
  }

  /** The branch "timer already exists" of `insertTimerLocked` and the branch
    * `state != RequeuePending` of `requeueFromLoop` are never taken. */
  lemma DeadBranches(run: seq<Sys>, acts: seq<Act>, i: nat, t: TimerId)
    requires IsRun(run, acts) && i < |run| && t in run[i].timers
    ensures CtlAt(run[i].timers[t], List) || run[i].loop == RqList(t) ==> t !in run[i].list
    ensures run[i].loop == RqLoad(t) ==> run[i].timers[t].state == RequeuePending
  {
    TimersInvInRun(run, acts, i);
    assert Placed(run[i], t);
  }

  // ---------------------------------------------------------------- order

  /** The list is sorted by the live expiries, equal expiries in insertion order, and no store to an
    * expiry happens while that timer is listed. */
  lemma ListSortedByLiveExpiry(run: seq<Sys>, acts: seq<Act>, i: nat)
    requires IsRun(run, acts) && i < |run|
    ensures Closed(run[i])
    ensures forall j, k :: 0 <= j < k < |run[i].list| ==>
              var a, b := run[i].timers[run[i].list[j]], run[i].timers[run[i].list[k]];
              a.expiry < b.expiry || (a.expiry == b.expiry && a.stamp < b.stamp)
    ensures i < |acts| ==> forall t :: t in run[i].list ==>
              t in run[i + 1].timers && run[i + 1].timers[t].expiry == run[i].timers[t].expiry
  {
    TimersInvInRun(run, acts, i);
    if i < |acts| {
      forall t | t in run[i].list
        ensures t in run[i + 1].timers && run[i + 1].timers[t].expiry == run[i].timers[t].expiry
      {
        ExpiryStoredOffList(run[i], acts[i], t);
      }
    }
  }

  lemma ExpiryStoredOffList(s: Sys, a: Act, t: TimerId)
    requires TimersInv(s) && Enabled(s, a) && t in s.list
    ensures t in Do(s, a).timers && Do(s, a).timers[t].expiry == s.timers[t].expiry
  {
    assert Placed(s, t);
    StepEffect(s, a, t);
  }

  /** What the loop takes is the earliest of the list, and it is due. */
  lemma TakesTheEarliestDue(run: seq<Sys>, acts: seq<Act>, i: nat, t: TimerId)
    requires IsRun(run, acts) && i < |run| && run[i].loop == TakeCas(t)
    ensures Closed(run[i]) && t in run[i].list
    ensures forall u :: u in run[i].list && u != t ==> Before(run[i].timers[t], run[i].timers[u])
    ensures run[i].timers[t].expiry <= run[i].now
  {
    DueInRun(run, acts, i);
  }

  /** Positions of the loop between taking a timer and storing its next expiry. */
  predicate BeforeRearm(l: LoopPc) {
    l.TakeCas? || l.TakeReset? || l.TakePop? || l.ReadHandler? || l.Callback? || l.ReadConfig? || l.CheckStop?
  }

  ghost predicate DueInv(s: Sys) {
    TimersInv(s) && (BeforeRearm(s.loop) ==> s.timers[s.loop.t].expiry <= s.now)
  }

  lemma StepKeepsDue(s: Sys, a: Act)
    requires DueInv(s) && Enabled(s, a)
    ensures DueInv(Do(s, a))
  {
    StepKeepsTimers(s, a);
    if s.loop.Take? && a.Loop? {
      TakesWhatIsDue(s, a.c);
    } else if BeforeRearm(Do(s, a).loop) {
      HeldBefore(s, a);
      StepMovesDue(s, a, Do(s, a).loop.t);
    }
  }

  lemma TakesWhatIsDue(s: Sys, c: Choice)
    requires Closed(s) && LoopEnabled(s, c) && s.loop.Take?
    ensures var s' := LoopStep(s, c);
            BeforeRearm(s'.loop) ==> s'.loop.t in s'.timers && s'.timers[s'.loop.t].expiry <= s'.now
  {
  }

  /** Away from Take, a timer that the loop holds before the re-arming it held before. */
  lemma HeldBefore(s: Sys, a: Act)
    requires Closed(s) && Enabled(s, a) && !(s.loop.Take? && a.Loop?) && BeforeRearm(Do(s, a).loop)
    ensures Do(s, a).loop.t in s.timers && BeforeRearm(s.loop) && s.loop.t == Do(s, a).loop.t
  {
    if a.Loop? {
      LoopHeldBefore(s, a.c);
    } else {
      OthersLeaveLoop(s, a);
    }
  }

  lemma LoopHeldBefore(s: Sys, c: Choice)
    requires Closed(s) && LoopEnabled(s, c) && !s.loop.Take? && BeforeRearm(LoopStep(s, c).loop)
    ensures LoopStep(s, c).loop.t in s.timers && BeforeRearm(s.loop) && s.loop.t == LoopStep(s, c).loop.t
  {
    if LoopTimer(s.loop) >= 0 {
      NextBeforeRearm(s.loop, s.timers[LoopTimer(s.loop)], c);
    } else {
      LoopElsewhereStaysAway(s, c);
    }
  }

  lemma NextBeforeRearm(l: LoopPc, r: Timer, c: Choice)
    requires LoopTimer(l) >= 0 && BeforeRearm(HoldingNext(l, r, c))
    ensures BeforeRearm(l) && l.t == HoldingNext(l, r, c).t
  {
  }

  lemma OthersLeaveLoop(s: Sys, a: Act)
    requires Closed(s) && Enabled(s, a) && !a.Loop?
    ensures Do(s, a).loop == s.loop
  {
  }

  lemma DueEffect(s: Sys, a: Act, s': Sys, t: TimerId)
    requires t in s.timers && Placed(s, t) && t in s'.timers && Effect(s, a, s', t)
    requires BeforeRearm(s.loop) && s.loop.t == t && BeforeRearm(s'.loop) && s'.loop.t == t
    ensures s'.timers[t].expiry == s.timers[t].expiry
  {
  }

  lemma StepMovesDue(s: Sys, a: Act, t: TimerId)
    requires DueInv(s) && Enabled(s, a) && t in s.timers
    requires BeforeRearm(s.loop) && s.loop.t == t && BeforeRearm(Do(s, a).loop) && Do(s, a).loop.t == t
    ensures t in Do(s, a).timers && Do(s, a).timers[t].expiry <= Do(s, a).now
  {
    assert Placed(s, t);
    StepEffect(s, a, t);
    DueEffect(s, a, Do(s, a), t);
    NowGrows(s, a);
  }

  lemma NowGrows(s: Sys, a: Act)
    requires Closed(s) && Enabled(s, a)
    ensures s.now <= Do(s, a).now
  {
  }

  lemma {:induction false} DueInRun(run: seq<Sys>, acts: seq<Act>, i: nat)
    requires IsRun(run, acts) && i < |run|
    ensures DueInv(run[i])
  {
    if i > 0 {
      DueInRun(run, acts, i - 1);
      StepKeepsDue(run[i - 1], acts[i - 1]);
    }
  }

  /** A callback never begins before its timer's expiry. */
  lemma NeverFiresEarly(run: seq<Sys>, acts: seq<Act>, i: nat, t: TimerId)
    requires IsRun(run, acts) && i < |run| && run[i].loop == Callback(t)
    ensures t in run[i].timers && run[i].timers[t].expiry <= run[i].now
    ensures run[i].timers[t].state == Executing
  {
    DueInRun(run, acts, i);
    assert Placed(run[i], t);
  }

  // ---------------------------------------------------------------- stopAndWait

  /** Stopped, off the list, and the loop neither looks at it nor executes nor requeues it: at most the
    * broadcast after its final state store is outstanding. */
  ghost predicate AtRest(s: Sys, t: TimerId) {
    && t in s.timers
    && s.timers[t].state == Stopped
    && t !in s.list
    && GripOn(s.loop, t) == Away
  }

  predicate StartsAt(s: Sys, a: Act, t: TimerId) {
    a.Ctl? && a.t == t && t in s.timers && CtlAt(s.timers[t], StoreQueued)
  }

  lemma RestEffect(s: Sys, a: Act, s': Sys, t: TimerId)
    requires AtRest(s, t) && Placed(s, t) && !StartsAt(s, a, t) && t in s'.timers && Effect(s, a, s', t)
    ensures AtRest(s', t)
  {
  }

  lemma RestUntilStarted(s: Sys, a: Act, t: TimerId)
    requires TimersInv(s) && Enabled(s, a) && AtRest(s, t) && !StartsAt(s, a, t)
    ensures AtRest(Do(s, a), t)
  {
    assert Placed(s, t);
    StepEffect(s, a, t);
    RestEffect(s, a, Do(s, a), t);
  }

  lemma FinishedIsAtRest(s: Sys, t: TimerId)
    requires TimersInv(s) && t in s.timers && CtlAt(s.timers[t], Finished)
    ensures AtRest(s, t)
  {
    assert Placed(s, t);
  }

  lemma RestsOn(run: seq<Sys>, acts: seq<Act>, k: nat, t: TimerId)
    requires IsRun(run, acts) && k < |acts| && AtRest(run[k], t) && !StartsAt(run[k], acts[k], t)
    ensures AtRest(run[k + 1], t)
  {
    TimersInvInRun(run, acts, k);
    RestUntilStarted(run[k], acts[k], t);
  }

  ghost predicate RestsOver(run: seq<Sys>, k: nat, t: TimerId) {
    k + 1 < |run| && (AtRest(run[k], t) ==> AtRest(run[k + 1], t))
  }

  lemma {:induction false} RestCarries(run: seq<Sys>, i: nat, j: nat, t: TimerId)
    requires i <= j < |run| && AtRest(run[i], t) && forall k :: i <= k < j ==> RestsOver(run, k, t)
    ensures AtRest(run[j], t)
  {
    if i < j {
      RestCarries(run, i, j - 1, t);
      assert RestsOver(run, j - 1, t);
    }
  }

  lemma StaysAtRest(run: seq<Sys>, acts: seq<Act>, i: nat, j: nat, t: TimerId)
    requires IsRun(run, acts) && i <= j < |run| && AtRest(run[i], t)
    requires forall k :: i <= k < j ==> !StartsAt(run[k], acts[k], t)
    ensures AtRest(run[j], t)
  {
    forall k | i <= k < j ensures RestsOver(run, k, t) {
      if AtRest(run[k], t) {
        RestsOn(run, acts, k, t);
      }
    }
    RestCarries(run, i, j, t);
  }

  /** When `stop` or `stopAndWait` gets to its return with the timer seen stopped, the timer is at rest,
    * and it stays so, its callback not beginning, until a `start` stores Queued. */
  lemma StopAndWaitLeavesAtRest(run: seq<Sys>, acts: seq<Act>, i: nat, j: nat, t: TimerId)
    requires IsRun(run, acts) && i <= j < |run|
    requires t in run[i].timers && CtlAt(run[i].timers[t], Finished)
    requires forall k :: i <= k < j ==> !StartsAt(run[k], acts[k], t)
    ensures AtRest(run[j], t) && run[j].loop != Callback(t)
  {
    TimersInvInRun(run, acts, i);
    FinishedIsAtRest(run[i], t);
    StaysAtRest(run, acts, i, j, t);
  }

  lemma StaysDestroyedInRun(run: seq<Sys>, acts: seq<Act>, k: nat, t: TimerId)
    requires IsRun(run, acts) && k < |acts| && t in run[k].timers && run[k].timers[t].control.Destroyed?
    ensures t in run[k + 1].timers && run[k + 1].timers[t].control.Destroyed?
  {
    TimersInvInRun(run, acts, k);
    StaysDestroyed(run[k], acts[k], t);
  }

  lemma {:induction false} DestroyedStays(run: seq<Sys>, acts: seq<Act>, i: nat, j: nat, t: TimerId)
    requires IsRun(run, acts) && i <= j < |run|
    requires t in run[i].timers && run[i].timers[t].control.Destroyed?
    ensures t in run[j].timers && run[j].timers[t].control.Destroyed?
  {
    if i < j {
      DestroyedStays(run, acts, i, j - 1, t);
      StaysDestroyedInRun(run, acts, j - 1, t);
    }
  }

  /** After the destructor's `stopAndWait` nothing ever brings the timer back. */
  lemma DestroyedForGood(run: seq<Sys>, acts: seq<Act>, i: nat, j: nat, t: TimerId)
    requires IsRun(run, acts) && i <= j < |run|
    requires t in run[i].timers && run[i].timers[t].control.Destroyed?
    ensures AtRest(run[j], t) && run[j].timers[t].control.Destroyed?
  {
    DestroyedStays(run, acts, i, j, t);
    TimersInvInRun(run, acts, j);
    DestroyedIsAtRest(run[j], t);
  }

  lemma DestroyedIsAtRest(s: Sys, t: TimerId)
    requires TimersInv(s) && t in s.timers && s.timers[t].control.Destroyed?
    ensures AtRest(s, t)
  {
    assert Placed(s, t);
  }

  lemma StaysDestroyed(s: Sys, a: Act, t: TimerId)
    requires TimersInv(s) && Enabled(s, a) && t in s.timers && s.timers[t].control.Destroyed?
    ensures t in Do(s, a).timers && Do(s, a).timers[t].control.Destroyed?
  {
    StepEffect(s, a, t);
  }

  // ---------------------------------------------------------------- stop requests during an execution

  /** The positions from the reset in `tryBeginExecuteFromLoop` to the last check in `requeueFromLoop`. */
  predicate InWindow(l: LoopPc) {
    || (l.TakePop? && l.ok)
    || l.ReadHandler? || l.Callback? || l.ReadConfig? || l.CheckStop? || l.Rearm? || l.StorePending?
    || l.RqLoad? || l.RqCheck? || l.RqList? || l.RqListWake? || l.RqRecheck?
  }

  /** The loop executes `t` with a stop request it will still see, or has already decided to stop. */
  predicate Doomed(s: Sys, t: TimerId) {
    && t in s.timers
    && LoopTimer(s.loop) == t
    && ((InWindow(s.loop) && s.timers[t].stopRequested)
        || s.loop in {EndStopped(t), RqUnlist(t), RqUnlistWake(t), RqStopped(t)})
  }

  ghost predicate EndedStopped(s: Sys, t: TimerId) {
    && t in s.timers && s.timers[t].state == Stopped && t !in s.list && s.loop == Signal(t)
  }

  lemma DoomedEffect(s: Sys, a: Act, s': Sys, t: TimerId)
    requires Doomed(s, t) && Placed(s, t) && t in s'.timers && Effect(s, a, s', t)
    ensures Doomed(s', t) || EndedStopped(s', t)
  {
  }

  lemma DoomedUntilStopped(s: Sys, a: Act, t: TimerId)
    requires TimersInv(s) && Enabled(s, a) && Doomed(s, t)
    ensures Doomed(Do(s, a), t) || EndedStopped(Do(s, a), t)
  {
    assert Placed(s, t);
    StepEffect(s, a, t);
    DoomedEffect(s, a, Do(s, a), t);
  }

  /** A stop request standing anywhere in the window ends that very execution Stopped and off the list;
    * until then no step of any thread clears it. */
  lemma {:induction false} StopInWindowIsHonoured(run: seq<Sys>, acts: seq<Act>, i: nat, j: nat, t: TimerId)
    requires IsRun(run, acts) && i <= j < |run| && Doomed(run[i], t)
    ensures DoomedFrom(run, i, j + 1, t)
            || exists k :: i < k <= j && DoomedFrom(run, i, k, t) && EndedStopped(run[k], t)
  {
    if i < j {
      StopInWindowIsHonoured(run, acts, i, j - 1, t);
      if DoomedFrom(run, i, j, t) {
        TimersInvInRun(run, acts, j - 1);
        DoomedUntilStopped(run[j - 1], acts[j - 1], t);
      }
    }
  }

  ghost predicate DoomedFrom(run: seq<Sys>, i: nat, j: nat, t: TimerId)
    requires j <= |run|
  {
    forall m :: i <= m < j ==> Doomed(run[m], t)
  }
}
