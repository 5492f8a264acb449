/** Whole calls of stop, stopAndWait and start that nobody disturbs, access by access, and what the return of a
  * disturbed one tells. */
module TimerCalls {
  import opened TimerOrder
  import opened TimerProtocol
  import opened TimerTheorems
  import opened TimerDrain
  import opened TimerTurn
  import opened TimerLostStop

  // ---------------------------------------------------------------- undisturbed

  lemma LeadsOne(s: Sys, a: Act, s': Sys)
    requires Closed(s) && Enabled(s, a) && Do(s, a) == s'
    ensures Leads(s, [a], s')
  {
    assert [a][1..] == [] && Leads(s', [], s');
  }

  /** An access that only writes into the timer. */
  lemma Writes(s: Sys, t: TimerId, c: Choice, x: Timer, y: Timer)
    requires Closed(s) && t in s.timers && Closed(SetTimer(s, t, x)) && CtlEnabled(SetTimer(s, t, x), t, c)
    requires x.control.pc !in {Unlist, UnlistWake, List, ListWake} && y == CtlRecord(x, c)
    ensures Leads(SetTimer(s, t, x), [Ctl(t, c)], SetTimer(s, t, y))
  {
    Overwrite(s.timers, t, x, y);
    LeadsOne(SetTimer(s, t, x), Ctl(t, c), SetTimer(s, t, y));
  }

  /** The timer with its controller at `pc` of `op`. */
  function Holding(r: Timer, who: Thread, op: Op, pc: CtlPc): Timer {
    r.(control := Held(who, op, pc))
  }

  lemma Acquires(s: Sys, t: TimerId, who: Thread, op: Op)
    requires Closed(s) && t in s.timers && s.timers[t].control.Free?
    ensures Leads(s, [Acquire(t, who, op)], SetTimer(s, t, Holding(s.timers[t], who, op, Load)))
  {
    LeadsOne(s, Acquire(t, who, op), SetTimer(s, t, Holding(s.timers[t], who, op, Load)));
  }

  /** A call that finds the timer Stopped goes straight to its return. */
  lemma SeesStopped(s: Sys, t: TimerId, who: Thread, op: Op)
    requires Closed(s) && t in s.timers && s.timers[t].control.Free? && s.timers[t].state == Stopped
    ensures Leads(s, [Acquire(t, who, op), Ctl(t, GO)], SetTimer(s, t, Holding(s.timers[t], who, op, Finished)))
  {
    var r := s.timers[t];
    Acquires(s, t, who, op);
    Writes(s, t, GO, Holding(r, who, op, Load), Holding(r, who, op, Finished));
    LeadsJoin(s, [Acquire(t, who, op)], SetTimer(s, t, Holding(r, who, op, Load)), [Ctl(t, GO)],
              SetTimer(s, t, Holding(r, who, op, Finished)));
    assert [Acquire(t, who, op)] + [Ctl(t, GO)] == [Acquire(t, who, op), Ctl(t, GO)];
  }

  lemma SeesQueued(s: Sys, t: TimerId, who: Thread, op: Op)
    requires Closed(s) && t in s.timers && s.timers[t].control.Free? && s.timers[t].state == Queued
    ensures Leads(s, [Acquire(t, who, op), Ctl(t, GO)], SetTimer(s, t, Holding(s.timers[t], who, op, Cas)))
  {
    var r := s.timers[t];
    Acquires(s, t, who, op);
    Writes(s, t, GO, Holding(r, who, op, Load), Holding(r, who, op, Cas));
    LeadsJoin(s, [Acquire(t, who, op)], SetTimer(s, t, Holding(r, who, op, Load)), [Ctl(t, GO)],
              SetTimer(s, t, Holding(r, who, op, Cas)));
    assert [Acquire(t, who, op)] + [Ctl(t, GO)] == [Acquire(t, who, op), Ctl(t, GO)];
  }

  /** The exchange and the store of the flag. */
  lemma Exchanged(s: Sys, t: TimerId, who: Thread, op: Op)
    requires Closed(s) && t in s.timers && s.timers[t].state == Queued
    ensures Leads(SetTimer(s, t, Holding(s.timers[t], who, op, Cas)), [Ctl(t, GO), Ctl(t, GO)],
                  SetTimer(s, t, Holding(s.timers[t].(state := Stopped, stopRequested := true), who, op, Unlist)))
  {
    var r := s.timers[t];
    var x, y := Holding(r, who, op, Cas), Holding(r.(state := Stopped), who, op, FlagStop);
    var z := Holding(r.(state := Stopped, stopRequested := true), who, op, Unlist);
    Writes(s, t, GO, x, y);
    Writes(s, t, GO, y, z);
    LeadsJoin(SetTimer(s, t, x), [Ctl(t, GO)], SetTimer(s, t, y), [Ctl(t, GO)], SetTimer(s, t, z));
    assert [Ctl(t, GO)] + [Ctl(t, GO)] == [Ctl(t, GO), Ctl(t, GO)];
  }

  /** The section that unlists the timer and the wake-up behind it. */
  lemma Unlists(s: Sys, t: TimerId, who: Thread, op: Op, r: Timer)
    requires Closed(s) && t in s.timers && TimerLockFree(s.loop)
    ensures Leads(SetTimer(s, t, Holding(r, who, op, Unlist)), [Ctl(t, GO), Ctl(t, GO)],
                  SetTimer(s, t, Holding(r, who, op, UnlistSignal)).(list := Erase(s.list, t),
                                                                    pipe := Send(s.pipe, Wakeup)))
  {
    var x, y, z := Holding(r, who, op, Unlist), Holding(r, who, op, UnlistWake), Holding(r, who, op, UnlistSignal);
    var s1, s2 := SetTimer(s, t, x), SetTimer(s, t, y).(list := Erase(s.list, t));
    var s3 := SetTimer(s, t, z).(list := Erase(s.list, t), pipe := Send(s.pipe, Wakeup));
    Overwrite(s.timers, t, x, y);
    Overwrite(s.timers, t, y, z);
    LeadsOne(s1, Ctl(t, GO), s2);
    LeadsOne(s2, Ctl(t, GO), s3);
    LeadsJoin(s1, [Ctl(t, GO)], s2, [Ctl(t, GO)], s3);
    assert [Ctl(t, GO)] + [Ctl(t, GO)] == [Ctl(t, GO), Ctl(t, GO)];
  }

  /** What stopping a queued timer leaves. */
  function Unqueued(s: Sys, t: TimerId, r: Timer): Sys {
    SetTimer(s, t, r).(list := Erase(s.list, t), pipe := Send(s.pipe, Wakeup))
  }

  lemma Broadcasts(s: Sys, t: TimerId, who: Thread, op: Op, r: Timer)
    requires Closed(s) && t in s.timers
    ensures Leads(Unqueued(s, t, Holding(r, who, op, UnlistSignal)), [Ctl(t, GO)],
                  Unqueued(s, t, Holding(r, who, op, Finished)))
  {
    Overwrite(s.timers, t, Holding(r, who, op, UnlistSignal), Holding(r, who, op, Finished));
    LeadsOne(Unqueued(s, t, Holding(r, who, op, UnlistSignal)), Ctl(t, GO),
             Unqueued(s, t, Holding(r, who, op, Finished)));
  }

  /** `n` accesses of the controller. */
  function Accesses(t: TimerId, n: nat): seq<Act> {
    seq(n, _ => Ctl(t, GO))
  }

  lemma UnqueuesFirst(s: Sys, t: TimerId, who: Thread, op: Op)
    requires Closed(s) && t in s.timers && s.timers[t].control.Free? && s.timers[t].state == Queued
    ensures var r := s.timers[t].(state := Stopped, stopRequested := true);
            Leads(s, [Acquire(t, who, op)] + Accesses(t, 3), SetTimer(s, t, Holding(r, who, op, Unlist)))
  {
    var r := s.timers[t].(state := Stopped, stopRequested := true);
    SeesQueued(s, t, who, op);
    Exchanged(s, t, who, op);
    LeadsJoin(s, [Acquire(t, who, op), Ctl(t, GO)], SetTimer(s, t, Holding(s.timers[t], who, op, Cas)),
              [Ctl(t, GO), Ctl(t, GO)], SetTimer(s, t, Holding(r, who, op, Unlist)));
    assert [Acquire(t, who, op), Ctl(t, GO)] + [Ctl(t, GO), Ctl(t, GO)] == [Acquire(t, who, op)] + Accesses(t, 3);
  }

  lemma UnqueuesThen(s: Sys, t: TimerId, who: Thread, op: Op, r: Timer)
    requires Closed(s) && t in s.timers && TimerLockFree(s.loop)
    ensures Leads(SetTimer(s, t, Holding(r, who, op, Unlist)), Accesses(t, 3),
                  Unqueued(s, t, Holding(r, who, op, Finished)))
  {
    Unlists(s, t, who, op, r);
    Broadcasts(s, t, who, op, r);
    LeadsJoin(SetTimer(s, t, Holding(r, who, op, Unlist)), [Ctl(t, GO), Ctl(t, GO)],
              Unqueued(s, t, Holding(r, who, op, UnlistSignal)), [Ctl(t, GO)],
              Unqueued(s, t, Holding(r, who, op, Finished)));
    assert [Ctl(t, GO), Ctl(t, GO)] + [Ctl(t, GO)] == Accesses(t, 3);
  }

  /** A call that finds the timer Queued gets to its return with it Stopped and unlisted. */
  lemma Unqueues(s: Sys, t: TimerId, who: Thread, op: Op)
    requires Closed(s) && t in s.timers && s.timers[t].control.Free? && s.timers[t].state == Queued
    requires TimerLockFree(s.loop)
    ensures Leads(s, [Acquire(t, who, op)] + Accesses(t, 6),
                  Unqueued(s, t, Holding(s.timers[t].(state := Stopped, stopRequested := true), who, op, Finished)))
  {
    var r := s.timers[t].(state := Stopped, stopRequested := true);
    UnqueuesFirst(s, t, who, op);
    UnqueuesThen(s, t, who, op, r);
    LeadsJoin(s, [Acquire(t, who, op)] + Accesses(t, 3), SetTimer(s, t, Holding(r, who, op, Unlist)), Accesses(t, 3),
              Unqueued(s, t, Holding(r, who, op, Finished)));
    assert ([Acquire(t, who, op)] + Accesses(t, 3)) + Accesses(t, 3) == [Acquire(t, who, op)] + Accesses(t, 6);
  }

  /** A timer that nobody executes, and the list that goes with it, once it is stopped. */
  function StoppedHere(s: Sys, t: TimerId): Sys
    requires t in s.timers
  {
    if s.timers[t].state == Stopped then s
    else Unqueued(s, t, s.timers[t].(state := Stopped, stopRequested := true))
  }

  /** From the lock to the point where stopAndWait returns: what stop, start and the destructor do to a timer that
    * is not being executed. */
  lemma GetsToReturn(s: Sys, t: TimerId, who: Thread, op: Op) returns (n: nat)
    requires TimersInv(s) && t in s.timers && s.timers[t].control.Free? && TimerLockFree(s.loop)
    requires s.timers[t].state == Stopped || s.timers[t].state == Queued
    ensures var m := StoppedHere(s, t);
            && Closed(m) && t in m.timers && m.timers[t].control.Free? && AtRest(m, t)
            && Leads(s, [Acquire(t, who, op)] + Accesses(t, n),
                     SetTimer(m, t, Holding(m.timers[t], who, op, Finished)))
  {
    assert Placed(s, t);
    if s.timers[t].state == Stopped {
      n := 1;
      SeesStopped(s, t, who, op);
      assert [Acquire(t, who, op)] + Accesses(t, 1) == [Acquire(t, who, op), Ctl(t, GO)];
    } else {
      n := 6;
      var r := s.timers[t].(state := Stopped, stopRequested := true);
      Unqueues(s, t, who, op);
      SortedIsDistinct(s);
      EraseDistinct(s.list, t);
      Overwrite(s.timers, t, r, Holding(r, who, op, Finished));
    }
  }

  /** The last access of a call that stops and does no more. */
  lemma EndsThere(s: Sys, t: TimerId, who: Thread, op: Op, n: nat, m: Sys, y: Timer)
    requires Closed(m) && t in m.timers && m.timers[t].control.Free?
    requires Leads(s, [Acquire(t, who, op)] + Accesses(t, n), SetTimer(m, t, Holding(m.timers[t], who, op, Finished)))
    requires y == CtlRecord(Holding(m.timers[t], who, op, Finished), GO)
    ensures Leads(s, [Acquire(t, who, op)] + Accesses(t, n + 1), SetTimer(m, t, y))
  {
    var x := Holding(m.timers[t], who, op, Finished);
    Writes(m, t, GO, x, y);
    LeadsJoin(s, [Acquire(t, who, op)] + Accesses(t, n), SetTimer(m, t, x), [Ctl(t, GO)], SetTimer(m, t, y));
    assert ([Acquire(t, who, op)] + Accesses(t, n)) + [Ctl(t, GO)] == [Acquire(t, who, op)] + Accesses(t, n + 1);
  }

  /** stop() of a timer that is not being executed, undisturbed: a queued timer ends Stopped and unlisted, its flag
    * set and the loop woken; for a stopped one nothing changes. Either way it is at rest. */
  lemma StopStops(s: Sys, t: TimerId, who: Thread) returns (n: nat)
    requires TimersInv(s) && t in s.timers && s.timers[t].control.Free? && TimerLockFree(s.loop)
    requires s.timers[t].state == Stopped || s.timers[t].state == Queued
    ensures Leads(s, [Acquire(t, who, Stop)] + Accesses(t, n), StoppedHere(s, t)) && AtRest(StoppedHere(s, t), t)
  {
    var m := StoppedHere(s, t);
    n := GetsToReturn(s, t, who, Stop);
    EndsThere(s, t, who, Stop, n, m, m.timers[t]);
    assert m.timers[t := m.timers[t]] == m.timers;
    n := n + 1;
  }

  /** The destructor likewise. */
  lemma DestructorStops(s: Sys, t: TimerId, who: Thread) returns (n: nat)
    requires TimersInv(s) && t in s.timers && s.timers[t].control.Free? && TimerLockFree(s.loop)
    requires s.timers[t].state == Stopped || s.timers[t].state == Queued
    ensures var m := StoppedHere(s, t);
            Leads(s, [Acquire(t, who, Destroy)] + Accesses(t, n), SetTimer(m, t, m.timers[t].(control := Destroyed)))
  {
    var m := StoppedHere(s, t);
    n := GetsToReturn(s, t, who, Destroy);
    EndsThere(s, t, who, Destroy, n, m, m.timers[t].(control := Destroyed));
    n := n + 1;
  }

  /** start with an infinite delay only stops the timer. */
  lemma StartForeverStops(s: Sys, t: TimerId, who: Thread, repeating: bool) returns (n: nat)
    requires TimersInv(s) && t in s.timers && s.timers[t].control.Free? && TimerLockFree(s.loop)
    requires s.timers[t].state == Stopped || s.timers[t].state == Queued
    ensures Leads(s, [Acquire(t, who, Start(0xFFFF_FFFF, repeating))] + Accesses(t, n), StoppedHere(s, t))
  {
    var m := StoppedHere(s, t);
    n := GetsToReturn(s, t, who, Start(0xFFFF_FFFF, repeating));
    EndsThere(s, t, who, Start(0xFFFF_FFFF, repeating), n, m, m.timers[t]);
    assert m.timers[t := m.timers[t]] == m.timers;
    n := n + 1;
  }

  /** The settings asked for, due `msec` after the clock reading, and no stop request. */
  function Settings(r: Timer, msec: nat, repeating: bool, clock: nat): Timer {
    r.(interval := msec, repeating := repeating, expiry := clock + msec, stopRequested := false)
  }

  lemma Arms(s: Sys, t: TimerId, who: Thread, msec: nat, repeating: bool, clock: nat, r: Timer)
    requires Closed(s) && t in s.timers && msec != INFINITE && clock <= s.now
    ensures var op := Start(msec, repeating);
            Leads(SetTimer(s, t, Holding(r, who, op, Finished)), [Ctl(t, Choice(clock, false, false)), Ctl(t, GO)],
                  SetTimer(s, t, Holding(Settings(r, msec, repeating, clock), who, op, StoreQueued)))
  {
    var op, c := Start(msec, repeating), Choice(clock, false, false);
    var x := Holding(r, who, op, Finished);
    var y := Holding(Settings(r, msec, repeating, clock).(stopRequested := r.stopRequested), who, op, ClearStop);
    var z := Holding(Settings(r, msec, repeating, clock), who, op, StoreQueued);
    Writes(s, t, c, x, y);
    Writes(s, t, GO, y, z);
    LeadsJoin(SetTimer(s, t, x), [Ctl(t, c)], SetTimer(s, t, y), [Ctl(t, GO)], SetTimer(s, t, z));
    assert [Ctl(t, c)] + [Ctl(t, GO)] == [Ctl(t, c), Ctl(t, GO)];
  }

  /** The timer listed in its place, with the loop woken. */
  function Listed(s: Sys, t: TimerId, r: Timer): Sys
    requires (forall u :: u in s.list ==> u in s.timers) && t in s.timers
  {
    SetTimer(s, t, r.(stamp := s.inserts)).(list := InsertByKey(s.list, t, s.timers[t := r]), inserts := s.inserts + 1,
                                            pipe := Send(s.pipe, Wakeup))
  }

  lemma Section(s: Sys, t: TimerId, x: Timer, y: Timer, r: Timer)
    requires Closed(s) && t in s.timers && t !in s.list && TimerLockFree(s.loop) && CtlAt(x, List)
    requires y == x.(control := x.control.(pc := ListWake)) && r.expiry == y.expiry
    ensures Leads(SetTimer(s, t, x), [Ctl(t, GO)],
                  SetTimer(s, t, y.(stamp := s.inserts)).(list := InsertByKey(s.list, t, s.timers[t := r]),
                                                          inserts := s.inserts + 1))
  {
    Overwrite(s.timers, t, x, y);
    Overwrite(s.timers, t, y, y.(stamp := s.inserts));
    assert Keys(SetTimer(s, t, y)) == KeysOf(s.list, s.timers[t := r]);
    LeadsOne(SetTimer(s, t, x), Ctl(t, GO),
             SetTimer(s, t, y.(stamp := s.inserts)).(list := InsertByKey(s.list, t, s.timers[t := r]),
                                                     inserts := s.inserts + 1));
  }

  lemma WakesUp(s: Sys, t: TimerId, x: Timer)
    requires Closed(s) && t in s.timers && CtlAt(x, ListWake)
    ensures Leads(SetTimer(s, t, x), [Ctl(t, GO)], SetTimer(s, t, x.(control := Free)).(pipe := Send(s.pipe, Wakeup)))
  {
    Overwrite(s.timers, t, x, x.(control := Free));
    LeadsOne(SetTimer(s, t, x), Ctl(t, GO), SetTimer(s, t, x.(control := Free)).(pipe := Send(s.pipe, Wakeup)));
  }

  lemma ListedIs(s: Sys, t: TimerId, r: Timer, y: Timer)
    requires Closed(s) && t in s.timers && r.control.Free? && y == r.(control := y.control)
    ensures var m := s.(list := InsertByKey(s.list, t, s.timers[t := r]), inserts := s.inserts + 1);
            SetTimer(m, t, y.(stamp := s.inserts).(control := Free)).(pipe := Send(m.pipe, Wakeup)) == Listed(s, t, r)
  {
  }

  lemma Lists(s: Sys, t: TimerId, who: Thread, op: Op, r: Timer)
    requires Closed(s) && t in s.timers && t !in s.list && TimerLockFree(s.loop) && r.control.Free?
    ensures Leads(SetTimer(s, t, Holding(r, who, op, List)), [Ctl(t, GO)] + [Ctl(t, GO)], Listed(s, t, r))
  {
    var x, y := Holding(r, who, op, List), Holding(r, who, op, ListWake);
    var m := s.(list := InsertByKey(s.list, t, s.timers[t := r]), inserts := s.inserts + 1);
    Section(s, t, x, y, r);
    WakesUp(m, t, y.(stamp := s.inserts));
    ListedIs(s, t, r, y);
    LeadsJoin(SetTimer(s, t, x), [Ctl(t, GO)], SetTimer(m, t, y.(stamp := s.inserts)), [Ctl(t, GO)], Listed(s, t, r));
  }

  lemma QueuesAndLists(s: Sys, t: TimerId, who: Thread, op: Op, r: Timer)
    requires Closed(s) && t in s.timers && t !in s.list && TimerLockFree(s.loop) && r.control.Free?
    ensures Leads(SetTimer(s, t, Holding(r, who, op, StoreQueued)), [Ctl(t, GO)] + ([Ctl(t, GO)] + [Ctl(t, GO)]),
                  Listed(s, t, r.(state := Queued)))
  {
    var x, y := Holding(r, who, op, StoreQueued), Holding(r.(state := Queued), who, op, List);
    Writes(s, t, GO, x, y);
    Lists(s, t, who, op, r.(state := Queued));
    LeadsJoin(SetTimer(s, t, x), [Ctl(t, GO)], SetTimer(s, t, y), [Ctl(t, GO)] + [Ctl(t, GO)],
              Listed(s, t, r.(state := Queued)));
  }

  lemma StartsFromReturn(s: Sys, t: TimerId, who: Thread, msec: nat, repeating: bool, clock: nat, r: Timer)
    requires Closed(s) && t in s.timers && t !in s.list && TimerLockFree(s.loop) && r.control.Free?
    requires msec != INFINITE && clock <= s.now
    ensures Leads(SetTimer(s, t, Holding(r, who, Start(msec, repeating), Finished)),
                  [Ctl(t, Choice(clock, false, false))] + Accesses(t, 4),
                  Listed(s, t, Settings(r, msec, repeating, clock).(state := Queued)))
  {
    var op, x := Start(msec, repeating), Settings(r, msec, repeating, clock);
    Arms(s, t, who, msec, repeating, clock, r);
    QueuesAndLists(s, t, who, op, x);
    LeadsJoin(SetTimer(s, t, Holding(r, who, op, Finished)), [Ctl(t, Choice(clock, false, false)), Ctl(t, GO)],
              SetTimer(s, t, Holding(x, who, op, StoreQueued)), [Ctl(t, GO)] + ([Ctl(t, GO)] + [Ctl(t, GO)]),
              Listed(s, t, x.(state := Queued)));
    assert [Ctl(t, Choice(clock, false, false)), Ctl(t, GO)] + ([Ctl(t, GO)] + ([Ctl(t, GO)] + [Ctl(t, GO)]))
        == [Ctl(t, Choice(clock, false, false))] + Accesses(t, 4);
  }

  /** start(msec, repeating) of a timer that is not being executed, undisturbed, the clock read as `clock`: whatever
    * it was before, it ends Queued, due `msec` after that reading, with the settings asked for and no stop request,
    * listed behind every timer that expires no later, and the loop woken. */
  lemma StartQueues(s: Sys, t: TimerId, who: Thread, msec: nat, repeating: bool, clock: nat) returns (n: nat)
    requires TimersInv(s) && t in s.timers && s.timers[t].control.Free? && TimerLockFree(s.loop)
    requires (s.timers[t].state == Stopped || s.timers[t].state == Queued) && msec != INFINITE && clock <= s.now
    ensures var m := StoppedHere(s, t);
            && (forall u :: u in m.list ==> u in m.timers) && t in m.timers && t !in m.list
            && Leads(s, ([Acquire(t, who, Start(msec, repeating))] + Accesses(t, n))
                        + ([Ctl(t, Choice(clock, false, false))] + Accesses(t, 4)),
                     Listed(m, t, Settings(m.timers[t], msec, repeating, clock).(state := Queued)))
  {
    var m := StoppedHere(s, t);
    n := GetsToReturn(s, t, who, Start(msec, repeating));
    StartsFromReturn(m, t, who, msec, repeating, clock, m.timers[t]);
    LeadsJoin(s, [Acquire(t, who, Start(msec, repeating))] + Accesses(t, n),
              SetTimer(m, t, Holding(m.timers[t], who, Start(msec, repeating), Finished)),
              [Ctl(t, Choice(clock, false, false))] + Accesses(t, 4),
              Listed(m, t, Settings(m.timers[t], msec, repeating, clock).(state := Queued)));
  }

  // ---------------------------------------------------------------- disturbed

  lemma LoopGoesOn(s: Sys)
    requires TimersInv(s) && LoopTimer(s.loop) >= 0
    ensures LoopEnabled(s, GO)
  {
  }

  /** Whoever holds a timer's lock can take its next step, or the loop thread holds a timer or the list's lock and can
    * take its own: nobody waits for a timer that the loop has let go of. */
  lemma ControllerIsNeverStuck(run: seq<Sys>, acts: seq<Act>, i: nat, t: TimerId)
    requires IsRun(run, acts) && i < |run| && t in run[i].timers && run[i].timers[t].control.Held?
    ensures Closed(run[i])
    ensures || CtlEnabled(run[i], t, GO)
            || (LoopTimer(run[i].loop) >= 0 && LoopEnabled(run[i], GO)
                && (CtlAt(run[i].timers[t], Await) ==> LoopTimer(run[i].loop) == t))
  {
    TimersInvInRun(run, acts, i);
    assert Placed(run[i], t);
    if LoopTimer(run[i].loop) >= 0 {
      LoopGoesOn(run[i]);
    }
  }
}
