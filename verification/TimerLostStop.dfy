/** What `stop()` does not promise: exactly which stop requests an execution in progress misses. */
module TimerLostStop {
  import opened TimerOrder
  import opened TimerProtocol
  import opened TimerTheorems
  import opened TimerDrain
  import opened TimerTurn

  /** What a stop request is for: the timer is at rest, or the execution in hand will end Stopped and unlisted
    * (StopInWindowIsHonoured). */
  ghost predicate Honoured(s: Sys, t: TimerId) {
    Doomed(s, t) || AtRest(s, t)
  }

  /** The moments at which the request comes to nothing: just before the reset in `tryBeginExecuteFromLoop`, just
    * after the last check in `requeueFromLoop`, or when the loop has queued the timer again since it was seen
    * executing or pending. */
  predicate ComesToNothing(s: Sys, t: TimerId)
    requires t in s.timers
  {
    s.loop == TakeReset(t) || s.loop == RqQueued(t) || s.timers[t].state == Queued
  }

  /** A request, whatever has become of the timer since its state was loaded, is honoured if and only if it is not
    * stored at one of those moments. */
  lemma RequestIsHonouredIff(run: seq<Sys>, acts: seq<Act>, i: nat, t: TimerId)
    requires IsRun(run, acts) && i < |acts| && acts[i].Ctl? && acts[i].t == t
    requires t in run[i].timers && CtlAt(run[i].timers[t], RequestStop)
    ensures Honoured(run[i + 1], t) <==> !ComesToNothing(run[i], t)
  {
    TimersInvInRun(run, acts, i);
    RequestStepHonouredIff(run[i], acts[i], t);
  }

  lemma RequestStepHonouredIff(s: Sys, a: Act, t: TimerId)
    requires TimersInv(s) && a.Ctl? && a.t == t && Enabled(s, a) && t in s.timers && CtlAt(s.timers[t], RequestStop)
    ensures Honoured(Do(s, a), t) <==> !ComesToNothing(s, t)
  {
    assert Placed(s, t);
    StepEffect(s, a, t);
  }

  /** A call of stop() that held the timer's lock returns in this step. */
  predicate StopReturns(s: Sys, s': Sys, t: TimerId) {
    && t in s.timers && s.timers[t].control.Held? && s.timers[t].control.op.Stop?
    && t in s'.timers && s'.timers[t].control.Free?
  }

  /** Which positions go with which operation. */
  predicate OpFits(r: Timer) {
    r.control.Held? ==>
      && (r.control.pc in {ClearStop, StoreQueued, List, ListWake} ==>
            r.control.op.Start? && r.control.op.msec != INFINITE)
      && (r.control.pc.Await? ==> !r.control.op.Stop?)
  }

  lemma CtlKeepsOp(r: Timer, c: Choice)
    requires r.control.Held? && OpFits(r)
    ensures OpFits(CtlRecord(r, c))
  {
  }

  lemma EffectKeepsOp(s: Sys, a: Act, s': Sys, t: TimerId)
    requires t in s.timers && t in s'.timers && Effect(s, a, s', t) && OpFits(s.timers[t])
    ensures OpFits(s'.timers[t])
  {
    if s.timers[t].control.Held? && a.Ctl? && a.t == t {
      CtlKeepsOp(s.timers[t], a.c);
    }
  }

  lemma {:induction false} OpFitsInRun(run: seq<Sys>, acts: seq<Act>, i: nat, t: TimerId)
    requires IsRun(run, acts) && i < |run| && t in run[i].timers
    ensures OpFits(run[i].timers[t])
  {
    if i > 0 {
      TimersInvInRun(run, acts, i - 1);
      if t in run[i - 1].timers {
        OpFitsInRun(run, acts, i - 1, t);
        StepEffect(run[i - 1], acts[i - 1], t);
        EffectKeepsOp(run[i - 1], acts[i - 1], run[i], t);
      } else {
        NewTimerIsFree(run[i - 1], acts[i - 1], t);
      }
    }
  }

  lemma NewTimerIsFree(s: Sys, a: Act, t: TimerId)
    requires Closed(s) && Enabled(s, a) && t !in s.timers && t in Do(s, a).timers
    ensures Do(s, a).timers[t].control.Free?
  {
  }

  lemma FreeingEffect(s: Sys, a: Act, s': Sys, t: TimerId)
    requires t in s.timers && t in s'.timers && Effect(s, a, s', t) && OpFits(s.timers[t])
    requires s.timers[t].control.Held? && s'.timers[t].control.Free?
    ensures a.Ctl? && a.t == t
    ensures var op, pc := s.timers[t].control.op, s.timers[t].control.pc;
            match op
            case Stop => pc == Finished || pc == RequestStop
            case Start(msec, _) => (pc == Finished && msec == INFINITE) || (pc == ListWake && msec != INFINITE)
            case Destroy => false
  {
  }

  /** stop() returns only where the timer was seen stopped or has been unlisted, and where the request is stored;
    * start() only after having listed the timer, unless the delay is infinite; the destructor never lets go. */
  lemma CallReturnsFrom(run: seq<Sys>, acts: seq<Act>, i: nat, t: TimerId)
    requires IsRun(run, acts) && i < |acts| && t in run[i].timers && run[i].timers[t].control.Held?
    requires t in run[i + 1].timers && run[i + 1].timers[t].control.Free?
    ensures acts[i].Ctl? && acts[i].t == t
    ensures var op, pc := run[i].timers[t].control.op, run[i].timers[t].control.pc;
            match op
            case Stop => pc == Finished || pc == RequestStop
            case Start(msec, _) => (pc == Finished && msec == INFINITE) || (pc == ListWake && msec != INFINITE)
            case Destroy => false
  {
    TimersInvInRun(run, acts, i);
    OpFitsInRun(run, acts, i, t);
    StepEffect(run[i], acts[i], t);
    FreeingEffect(run[i], acts[i], run[i + 1], t);
  }

  /** When stop() returns it has been honoured, unless it took the branch for a timer being executed and stored its
    * request at one of those moments. */
  lemma StopHonouredIff(run: seq<Sys>, acts: seq<Act>, i: nat, t: TimerId)
    requires IsRun(run, acts) && i < |acts| && StopReturns(run[i], run[i + 1], t)
    ensures Honoured(run[i + 1], t) <==> !(CtlAt(run[i].timers[t], RequestStop) && ComesToNothing(run[i], t))
  {
    TimersInvInRun(run, acts, i);
    CallReturnsFrom(run, acts, i, t);
    if CtlAt(run[i].timers[t], RequestStop) {
      RequestStepHonouredIff(run[i], acts[i], t);
    } else {
      FinishedIsAtRest(run[i], t);
      RestUntilStarted(run[i], acts[i], t);
    }
  }

  /** The controller's load of the state finds the timer being executed or requeued. */
  predicate LoadsBusy(s: Sys, a: Act, t: TimerId) {
    && a.Ctl? && a.t == t && t in s.timers && CtlAt(s.timers[t], Load)
    && (s.timers[t].state == Executing || s.timers[t].state == RequeuePending)
  }

  lemma RequestEffect(s: Sys, a: Act, s': Sys, t: TimerId)
    requires t in s.timers && t in s'.timers && Effect(s, a, s', t) && CtlAt(s'.timers[t], RequestStop)
    ensures LoadsBusy(s, a, t) || CtlAt(s.timers[t], RequestStop)
  {
  }

  lemma ComesToRequest(s: Sys, a: Act, t: TimerId)
    requires TimersInv(s) && Enabled(s, a) && t in Do(s, a).timers && CtlAt(Do(s, a).timers[t], RequestStop)
    ensures t in s.timers && (LoadsBusy(s, a, t) || CtlAt(s.timers[t], RequestStop))
  {
    if t in s.timers {
      StepEffect(s, a, t);
      RequestEffect(s, a, Do(s, a), t);
    } else {
      NewTimerIsFree(s, a, t);
    }
  }

  /** Only a controller whose load of the state has found the timer executing or pending is about to store a
    * request; one that finds it Queued goes through the exchange, and one whose exchange fails loads again. */
  lemma {:induction false} RequestFollowsBusyLoad(run: seq<Sys>, acts: seq<Act>, i: nat, t: TimerId)
    requires IsRun(run, acts) && i < |run| && t in run[i].timers && CtlAt(run[i].timers[t], RequestStop)
    ensures exists j :: 0 <= j < i && LoadsBusy(run[j], acts[j], t)
              && forall k :: j < k <= i ==> t in run[k].timers && CtlAt(run[k].timers[t], RequestStop)
  {
    if i > 0 {
      TimersInvInRun(run, acts, i - 1);
      ComesToRequest(run[i - 1], acts[i - 1], t);
      if !LoadsBusy(run[i - 1], acts[i - 1], t) {
        RequestFollowsBusyLoad(run, acts, i - 1, t);
      }
    }
  }

  const GO := Choice(0, false, false)

  /** A whole call of stop() that finds the timer executing: lock, load, store and return. */
  function StopCall(t: TimerId, who: Thread): seq<Act> {
    [Acquire(t, who, Stop), Ctl(t, GO), Ctl(t, GO)]
  }

  /** `acts` leads from `s` to `s'`. */
  ghost predicate Leads(s: Sys, acts: seq<Act>, s': Sys)
    decreases |acts|
  {
    if acts == [] then s == s'
    else Closed(s) && Enabled(s, acts[0]) && Leads(Do(s, acts[0]), acts[1..], s')
  }

  lemma {:induction false} LeadsThen(s: Sys, acts: seq<Act>, m: Sys, a: Act)
    requires Leads(s, acts, m) && Closed(m) && Enabled(m, a)
    ensures Leads(s, acts + [a], Do(m, a))
    decreases |acts|
  {
    if acts == [] {
      assert Leads(Do(m, a), [], Do(m, a));
    } else {
      assert (acts + [a])[1..] == acts[1..] + [a];
      LeadsThen(Do(s, acts[0]), acts[1..], m, a);
    }
  }

  lemma StopCallStoresTheFlag(s: Sys, t: TimerId, who: Thread)
    requires Closed(s) && t in s.timers && s.timers[t].control.Free?
    requires s.timers[t].state in {Executing, RequeuePending}
    ensures Leads(s, StopCall(t, who), SetTimer(s, t, s.timers[t].(stopRequested := true)))
  {
    var r := s.timers[t];
    var r1, r2 := r.(control := Held(who, Stop, Load)), r.(control := Held(who, Stop, RequestStop));
    var s1, s2, s3 := SetTimer(s, t, r1), SetTimer(s, t, r2), SetTimer(s, t, r.(stopRequested := true));
    assert s1.timers[t := r2] == s2.timers && s2.timers[t := s3.timers[t]] == s3.timers;
    assert Leads(s, [], s);
    LeadsThen(s, [], s, Acquire(t, who, Stop));
    LeadsThen(s, [] + [Acquire(t, who, Stop)], s1, Ctl(t, GO));
    LeadsThen(s, [] + [Acquire(t, who, Stop)] + [Ctl(t, GO)], s2, Ctl(t, GO));
    assert [] + [Acquire(t, who, Stop)] + [Ctl(t, GO)] + [Ctl(t, GO)] == StopCall(t, who);
  }

  lemma ResetForgets(s: Sys, t: TimerId, c: Choice)
    requires Closed(s) && t in s.timers && s.loop == TakeReset(t)
    ensures var s3 := SetTimer(s, t, s.timers[t].(stopRequested := true));
            Closed(s3) && LoopStep(s3, c) == LoopStep(s, c)
  {
    var s3 := SetTimer(s, t, s.timers[t].(stopRequested := true));
    assert s3.timers[t := s.timers[t].(stopRequested := false)] == s.timers[t := s.timers[t].(stopRequested := false)];
  }

  /** Just before the reset, stop() is a no-op: after the loop's next step nothing tells that it was called,
    * whatever the timer's settings and whoever calls it. */
  lemma StopBeforeResetIsLost(s: Sys, t: TimerId, who: Thread, c: Choice)
    requires TimersInv(s) && s.loop == TakeReset(t) && s.timers[t].control.Free?
    ensures Leads(s, StopCall(t, who) + [Loop(c)], LoopStep(s, c))
  {
    assert Placed(s, t);
    StopCallStoresTheFlag(s, t, who);
    var s3 := SetTimer(s, t, s.timers[t].(stopRequested := true));
    ResetForgets(s, t, c);
    LeadsThen(s, StopCall(t, who), s3, Loop(c));
  }

  /** Just after the last check, stop() returns and the timer is queued all the same. */
  lemma StopAfterRecheckIsLost(s: Sys, t: TimerId, who: Thread, c: Choice) returns (s': Sys)
    requires TimersInv(s) && s.loop == RqQueued(t) && s.timers[t].control.Free?
    ensures Leads(s, StopCall(t, who) + [Loop(c)], s')
    ensures t in s'.timers && s'.timers[t].state == Queued && s'.timers[t].control.Free? && t in s'.list
  {
    assert Placed(s, t);
    StopCallStoresTheFlag(s, t, who);
    var s3 := SetTimer(s, t, s.timers[t].(stopRequested := true));
    s' := Do(s3, Loop(c));
    LeadsThen(s, StopCall(t, who), s3, Loop(c));
  }

  /** A call of stop() whose load is followed by the loop's storing Queued: it stores its request too late and
    * returns with the timer queued, and the reset before the next callback will wipe the request (ResetForgets). */
  function StaleStopCall(t: TimerId, who: Thread, c: Choice): seq<Act> {
    [Acquire(t, who, Stop), Ctl(t, GO), Loop(c), Ctl(t, GO)]
  }

  lemma StopAfterStaleLoadIsLost(s: Sys, t: TimerId, who: Thread, c: Choice) returns (s': Sys)
    requires TimersInv(s) && s.loop == RqQueued(t) && s.timers[t].control.Free?
    ensures Leads(s, StaleStopCall(t, who, c), s')
    ensures t in s'.timers && s'.timers[t].state == Queued && s'.timers[t].control.Free? && t in s'.list
    ensures !Honoured(s', t)
  {
    PendingThere(s, t);
    s' := SetTimer(s, t, s.timers[t].(state := Queued, stopRequested := true)).(loop := Signal(t));
    StaleCallLeads(s, t, who, c);
  }

  lemma PendingThere(s: Sys, t: TimerId)
    requires TimersInv(s) && s.loop == RqQueued(t)
    ensures s.timers[t].state == RequeuePending && t in s.list
  {
    assert Placed(s, t);
  }

  lemma StaleCallLeads(s: Sys, t: TimerId, who: Thread, c: Choice)
    requires Closed(s) && s.loop == RqQueued(t) && s.timers[t].control.Free? && s.timers[t].state == RequeuePending
    ensures Leads(s, StaleStopCall(t, who, c),
                  SetTimer(s, t, s.timers[t].(state := Queued, stopRequested := true)).(loop := Signal(t)))
  {
    var x := s.timers[t].(control := Held(who, Stop, RequestStop));
    var y := s.timers[t].(state := Queued, stopRequested := true);
    var m := SetTimer(s, t, x);
    StaleLoad(s, t, who);
    LateStore(m, t, c);
    Overwrite(s.timers, t, x, y);
    assert SetTimer(m, t, y).(loop := Signal(t)) == SetTimer(s, t, y).(loop := Signal(t));
    LeadsJoin(s, [Acquire(t, who, Stop), Ctl(t, GO)], m, [Loop(c), Ctl(t, GO)], SetTimer(s, t, y).(loop := Signal(t)));
    assert StaleStopCall(t, who, c) == [Acquire(t, who, Stop), Ctl(t, GO)] + [Loop(c), Ctl(t, GO)];
  }

  /** stop() takes the lock and sees the timer pending. */
  lemma StaleLoad(s: Sys, t: TimerId, who: Thread)
    requires Closed(s) && t in s.timers && s.timers[t].control.Free? && s.timers[t].state == RequeuePending
    ensures Leads(s, [Acquire(t, who, Stop), Ctl(t, GO)],
                  SetTimer(s, t, s.timers[t].(control := Held(who, Stop, RequestStop))))
  {
    var x, y := s.timers[t].(control := Held(who, Stop, Load)), s.timers[t].(control := Held(who, Stop, RequestStop));
    StopSteps(s, t, Acquire(t, who, Stop), x);
    StopSteps(SetTimer(s, t, x), t, Ctl(t, GO), y);
    Overwrite(s.timers, t, x, y);
    LeadsTwo(s, Acquire(t, who, Stop), SetTimer(s, t, x), Ctl(t, GO), SetTimer(s, t, y));
  }

  /** The loop queues it, and only then stop() stores its request. */
  lemma LateStore(s: Sys, t: TimerId, c: Choice)
    requires Closed(s) && s.loop == RqQueued(t) && CtlAt(s.timers[t], RequestStop) && s.timers[t].control.op.Stop?
    ensures var y := s.timers[t].(state := Queued, stopRequested := true, control := Free);
            Leads(s, [Loop(c), Ctl(t, GO)], SetTimer(s, t, y).(loop := Signal(t)))
  {
    var x := s.timers[t].(state := Queued);
    var y := x.(stopRequested := true, control := Free);
    var m := SetTimer(s, t, x).(loop := Signal(t));
    QueueStep(s, t, c);
    StopSteps(m, t, Ctl(t, GO), y);
    Overwrite(s.timers, t, x, y);
    LeadsTwo(s, Loop(c), m, Ctl(t, GO), SetTimer(s, t, y).(loop := Signal(t)));
  }

  /** A step of stop() that takes the lock, loads a pending state or stores the request. */
  lemma StopSteps(s: Sys, t: TimerId, a: Act, r: Timer)
    requires Closed(s) && t in s.timers
    requires var x := s.timers[t];
             || (a.Acquire? && a.t == t && x.control.Free? && r == x.(control := Held(a.who, a.op, Load)))
             || (a == Ctl(t, GO) && CtlAt(x, Load) && x.state == RequeuePending
                 && r == x.(control := x.control.(pc := RequestStop)))
             || (a == Ctl(t, GO) && CtlAt(x, RequestStop) && x.control.op.Stop?
                 && r == x.(stopRequested := true, control := Free))
    ensures Enabled(s, a) && Do(s, a) == SetTimer(s, t, r) && Closed(SetTimer(s, t, r))
  {
  }

  lemma QueueStep(s: Sys, t: TimerId, c: Choice)
    requires Closed(s) && s.loop == RqQueued(t)
    ensures Enabled(s, Loop(c)) && Do(s, Loop(c)) == SetTimer(s, t, s.timers[t].(state := Queued)).(loop := Signal(t))
    ensures Closed(Do(s, Loop(c)))
  {
  }

  lemma LeadsTwo(s: Sys, a: Act, m: Sys, b: Act, s': Sys)
    requires Closed(s) && Enabled(s, a) && Do(s, a) == m && Closed(m) && Enabled(m, b) && Do(m, b) == s'
    ensures Leads(s, [a, b], s')
  {
    assert Leads(s', [], s');
    assert [b][1..] == [] && Leads(m, [b], s');
    assert [a, b][1..] == [b];
  }

  lemma {:induction false} LeadsJoin(s: Sys, acts: seq<Act>, m: Sys, more: seq<Act>, s': Sys)
    requires Leads(s, acts, m) && Leads(m, more, s')
    ensures Leads(s, acts + more, s')
    decreases |acts|
  {
    if acts == [] {
      assert [] + more == more;
    } else {
      assert (acts + more)[1..] == acts[1..] + more;
      LeadsJoin(Do(s, acts[0]), acts[1..], m, more, s');
    }
  }

  // ---------------------------------------------------------------- such states are reached

  ghost predicate Reachable(s: Sys) {
    exists acts :: Leads(INITIAL, acts, s)
  }

  lemma ReachStep(s: Sys, a: Act, s': Sys)
    requires Reachable(s) && Closed(s) && Enabled(s, a)
    requires s'.timers == Do(s, a).timers && s' == Do(s, a).(timers := s'.timers)
    ensures Reachable(s')
  {
    var acts :| Leads(INITIAL, acts, s);
    LeadsThen(INITIAL, acts, s, a);
  }

  lemma {:induction false} LeadsKeepsTimers(s: Sys, acts: seq<Act>, s': Sys)
    requires TimersInv(s) && Leads(s, acts, s')
    ensures TimersInv(s')
    decreases |acts|
  {
    if acts != [] {
      StepKeepsTimers(s, acts[0]);
      LeadsKeepsTimers(Do(s, acts[0]), acts[1..], s');
    }
  }

  /** The only timer is timer 0. */
  function Alone(r: Timer, list: seq<TimerId>, loop: LoopPc, pipe: seq<Command>): Sys {
    Sys(map[0 := r], list, |list|, loop, 0, pipe, NoPoster, [], [], [], false, {})
  }

  const ZERO := Start(0, true)  // start(0, true): at once, and repeatedly
  const NEW := FRESH_TIMER.(hasHandler := true)
  const SET := Timer(Stopped, false, 0, 0, true, true, Held(1, ZERO, ClearStop), 0)

  lemma ReachConfigured()
    ensures Reachable(Alone(NEW.(control := Held(1, ZERO, Load)), [], GetFunction(false), []))
  {
    assert Leads(INITIAL, [], INITIAL);
    var l := GetFunction(false);
    ReachStep(INITIAL, Create(0), Alone(FRESH_TIMER, [], l, []));
    ReachStep(Alone(FRESH_TIMER, [], l, []), Configure(0, INFINITE, false, true), Alone(NEW, [], l, []));
    ReachStep(Alone(NEW, [], l, []), Acquire(0, 1, ZERO), Alone(NEW.(control := Held(1, ZERO, Load)), [], l, []));
  }

  /** A controller step that leaves list and pipe alone, or lists timer 0, or wakes the loop for it. */
  lemma ReachCtl(r: Timer, r': Timer, list: seq<TimerId>, pipe: seq<Command>, list': seq<TimerId>, pipe': seq<Command>)
    requires Reachable(Alone(r, list, GetFunction(false), pipe)) && r.control.Held? && r' == CtlRecord(r, GO)
    requires r.stamp == 0 && (list == [] || list == [0])
    requires (r.control.pc in {Load, Finished, ClearStop, StoreQueued} && list' == list && pipe' == pipe)
             || (r.control.pc.List? && list == [] && list' == [0] && pipe' == pipe)
             || (r.control.pc.ListWake? && list' == list && pipe' == pipe + [Wakeup] && pipe == [])
    ensures Reachable(Alone(r', list', GetFunction(false), pipe'))
  {
    assert InsertAt([], 0, 0) == [0];
    var l := GetFunction(false);
    ReachStep(Alone(r, list, l, pipe), Ctl(0, GO), Alone(r', list', l, pipe'));
  }

  const SEEN := Timer(Stopped, false, NEVER, INFINITE, false, true, Held(1, ZERO, Finished), 0)

  lemma ReachSeen()
    ensures Reachable(Alone(SEEN, [], GetFunction(false), []))
  {
    ReachConfigured();
    ReachCtl(NEW.(control := Held(1, ZERO, Load)), SEEN, [], [], [], []);
  }

  lemma ArmedRecord()
    ensures CtlRecord(SEEN, GO) == SET
  {
  }

  lemma ReachArmed()
    ensures Reachable(Alone(SET, [], GetFunction(false), []))
  {
    ReachSeen();
    ArmedRecord();
    ReachCtl(SEEN, SET, [], [], [], []);
  }

  lemma ReachStarted()
    ensures Reachable(Alone(SET.(state := Queued, control := Free), [0], GetFunction(false), [Wakeup]))
  {
    ReachArmed();
    var r1 := SET.(control := Held(1, ZERO, StoreQueued));
    ReachCtl(SET, r1, [], [], [], []);
    var r2 := SET.(state := Queued, control := Held(1, ZERO, List));
    ReachCtl(r1, r2, [], [], [], []);
    var r3 := r2.(control := Held(1, ZERO, ListWake));
    ReachCtl(r2, r3, [], [], [0], []);
    ReachCtl(r3, r3.(control := Free), [0], [], [0], [Wakeup]);
  }

  /** What the loop reaches by itself from a reachable state is reachable. */
  lemma ReachByLoop(s: Sys, e: Env, s': Sys)
    requires Reachable(s) && Reaches(s, e, s')
    ensures Reachable(s')
  {
    var p :| Path(p, e, s, s');
    ReachAlong(p, e, s, s', |p| - 1);
  }

  lemma {:induction false} ReachAlong(p: seq<Sys>, e: Env, s: Sys, s': Sys, k: nat)
    requires Reachable(s) && Path(p, e, s, s') && k < |p|
    ensures Reachable(p[k])
  {
    if k > 0 {
      ReachAlong(p, e, s, s', k - 1);
      assert Linked(p, e, k - 1);
      ReachLoopStep(p[k - 1], e.At(p[k - 1].loop));
    }
  }

  lemma ReachLoopStep(s: Sys, c: Choice)
    requires Reachable(s) && Closed(s) && LoopEnabled(s, c)
    ensures Reachable(LoopStep(s, c))
  {
    ReachStep(s, Loop(c), LoopStep(s, c));
  }

  lemma ReachableKeepsTimers(s: Sys)
    requires Reachable(s)
    ensures TimersInv(s)
  {
    var acts :| Leads(INITIAL, acts, s);
    LeadsKeepsTimers(INITIAL, acts, s);
  }

  const STARTED := Alone(SET.(state := Queued, control := Free), [0], Take, [Wakeup])

  lemma ReachTake()
    ensures Reachable(STARTED)
  {
    ReachStarted();
    ReachStep(Alone(SET.(state := Queued, control := Free), [0], GetFunction(false), [Wakeup]), Loop(GO), STARTED);
  }

  const ALWAYS := Env(0, ALWAYS_KEEP)

  /** A repeating timer with a handler that keeps it gets just before the reset: the first loss is real. */
  lemma LossIsReachable(who: Thread, c: Choice) returns (s: Sys)
    ensures Reachable(s) && TimersInv(s) && s.loop == TakeReset(0)
    ensures Leads(s, StopCall(0, who) + [Loop(c)], LoopStep(s, c))
  {
    ReachTake();
    Exchanges(STARTED, ALWAYS, 0);
    s := SetTimer(STARTED, 0, STARTED.timers[0].(state := Executing)).(loop := TakeReset(0));
    ReachByLoop(STARTED, ALWAYS, s);
    ReachableKeepsTimers(s);
    StopBeforeResetIsLost(s, 0, who, c);
  }

  /** It also gets just after the last check, so that the other two losses are real. */
  lemma LateLossesAreReachable(who: Thread, c: Choice) returns (s: Sys)
    ensures Reachable(s) && TimersInv(s) && s.loop == RqQueued(0) && s.timers[0].control.Free?
    ensures exists s' :: Leads(s, StopCall(0, who) + [Loop(c)], s') && QueuedAndFree(s')
    ensures exists s' :: Leads(s, StaleStopCall(0, who, c), s') && QueuedAndFree(s')
  {
    ReachTake();
    s := KeptRunsToTheLastCheck(STARTED, ALWAYS, 0);
    ReachByLoop(STARTED, ALWAYS, s);
    ReachableKeepsTimers(s);
    var x := StopAfterRecheckIsLost(s, 0, who, c);
    var y := StopAfterStaleLoadIsLost(s, 0, who, c);
    assert QueuedAndFree(x) && QueuedAndFree(y);
  }

  /** The call has returned and timer 0 is still queued. */
  predicate QueuedAndFree(s: Sys) {
    0 in s.timers && s.timers[0].state == Queued && s.timers[0].control.Free? && 0 in s.list
  }

  /** Every execution whose timer is kept passes by that point. */
  lemma KeptRunsToTheLastCheck(s: Sys, e: Env, t: TimerId) returns (s': Sys)
    requires Closed(s) && Distinct(s.list) && s.loop == Take && e.now <= s.now && s.list != [] && s.list[0] == t
    requires s.timers[t].expiry <= e.now && TimerDrain.Requeues(s.timers[t], e.answers(t))
    ensures Reaches(s, e, s') && s'.loop == RqQueued(t)
    ensures t in s'.timers && s'.timers[t].control == s.timers[t].control
  {
    var r := Begun(s.timers[t]);
    var s1 := SetTimer(s, t, r).(loop := ReadHandler(t), list := s.list[1..]);
    var s2 := s1.(loop := CheckStop(t, true, r.interval));
    assert t !in s2.list;
    Begins(s, e, t);
    Decides(s1, e, t);
    Chained(s, e, s1, s2);
    s' := KeptToTheLastCheck(s2, e, t);
    Chained(s, e, s2, s');
  }

  lemma KeptToTheLastCheck(s: Sys, e: Env, t: TimerId) returns (s': Sys)
    requires Closed(s) && t in s.timers && s.loop == CheckStop(t, true, s.timers[t].interval)
    requires t !in s.list && e.now <= s.now && !s.timers[t].stopRequested
    ensures Reaches(s, e, s') && s'.loop == RqQueued(t)
    ensures t in s'.timers && s'.timers[t].control == s.timers[t].control
  {
    var x := s.timers[t].(expiry := e.now + s.timers[t].interval, state := RequeuePending);
    var s1 := SetTimer(s, t, x).(loop := RqLoad(t));
    var s2 := Insert(s1, t).(loop := RqListWake(t));
    s' := s2.(loop := RqQueued(t), pipe := Send(s2.pipe, Wakeup));
    Rearms(s, e, t, s.timers[t].interval, x);
    Lists(s1, e, t);
    Wakes(s2, e, t);
    Chained(s, e, s1, s2);
    Chained(s, e, s2, s');
  }
}
