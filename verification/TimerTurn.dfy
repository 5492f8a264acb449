/** The atomic steps of TimerProtocol and the whole turns of TimerDrain are the same code: the loop thread, if
  * nobody else takes a step, gets from Take to Timeout with exactly the effect of one turn. */
module TimerTurn {
  import opened TimerOrder
  import opened TimerProtocol
  import opened TimerDrain

  /** The loop thread's surroundings: one clock reading, and what each handler answers. */
  datatype Env = Env(now: nat, answers: Answers) {
    function At(l: LoopPc): Choice {
      Choice(now, LoopTimer(l) >= 0 && answers(LoopTimer(l)), false)
    }
  }

  predicate Linked(p: seq<Sys>, e: Env, i: nat)
    requires i + 1 < |p|
  {
    Closed(p[i]) && LoopEnabled(p[i], e.At(p[i].loop)) && p[i + 1] == LoopStep(p[i], e.At(p[i].loop))
  }

  ghost predicate Path(p: seq<Sys>, e: Env, s: Sys, s': Sys) {
    && p != [] && p[0] == s && p[|p| - 1] == s'
    && forall i :: 0 <= i < |p| - 1 ==> Linked(p, e, i)
  }

  /** Steps of the loop thread alone. */
  ghost predicate Reaches(s: Sys, e: Env, s': Sys) {
    exists p :: Path(p, e, s, s')
  }

  lemma Chained(s: Sys, e: Env, m: Sys, s': Sys)
    requires Reaches(s, e, m) && Reaches(m, e, s')
    ensures Reaches(s, e, s')
  {
    var p :| Path(p, e, s, m);
    var q :| Path(q, e, m, s');
    var r := p + q[1..];
    forall i | 0 <= i < |r| - 1 ensures Linked(r, e, i) {
      LinkedInJoin(p, q, e, i);
    }
    assert Path(r, e, s, s');
  }

  lemma LinkedInJoin(p: seq<Sys>, q: seq<Sys>, e: Env, i: nat)
    requires p != [] && q != [] && p[|p| - 1] == q[0] && i + 1 < |p + q[1..]|
    requires forall j :: 0 <= j < |p| - 1 ==> Linked(p, e, j)
    requires forall j :: 0 <= j < |q| - 1 ==> Linked(q, e, j)
    ensures Linked(p + q[1..], e, i)
  {
    if i < |p| - 1 {
      assert Linked(p, e, i);
    } else {
      assert Linked(q, e, i - (|p| - 1));
    }
  }

  lemma OneStep(s: Sys, e: Env, s': Sys)
    requires Closed(s) && LoopEnabled(s, e.At(s.loop)) && LoopStep(s, e.At(s.loop)) == s'
    ensures Reaches(s, e, s')
  {
    var p := [s, s'];
    assert Linked(p, e, 0);
    assert Path(p, e, s, s');
  }

  /** A step that changes only the timer held and the position. */
  lemma Writes(s: Sys, e: Env, t: TimerId, r: Timer, l: LoopPc)
    requires Closed(s) && LoopEnabled(s, e.At(s.loop)) && LoopTimer(s.loop) == t
    requires !s.loop.TakePop? && !s.loop.RqList? && !s.loop.RqListWake? && !s.loop.RqUnlist? && !s.loop.RqUnlistWake?
    requires r == LoopRecord(s.loop, s.timers[t], e.At(s.loop)) && l == HoldingNext(s.loop, s.timers[t], e.At(s.loop))
    ensures Reaches(s, e, SetTimer(s, t, r).(loop := l))
  {
    OneStep(s, e, SetTimer(s, t, r).(loop := l));
  }

  lemma Exchanges(s: Sys, e: Env, t: TimerId)
    requires Closed(s) && s.loop == Take && e.now <= s.now && s.list != [] && s.list[0] == t
    requires s.timers[t].expiry <= e.now && s.timers[t].state == Queued
    ensures Reaches(s, e, SetTimer(s, t, s.timers[t].(state := Executing)).(loop := TakeReset(t)))
  {
    var r := s.timers[t].(state := Executing);
    var s1, s2 := s.(loop := TakeCas(t)), SetTimer(s, t, r).(loop := TakeReset(t));
    OneStep(s, e, s1);
    OneStep(s1, e, s2);
    Chained(s, e, s1, s2);
  }

  lemma ResetsAndPops(s: Sys, e: Env, t: TimerId)
    requires Closed(s) && s.loop == TakeReset(t) && s.list != []
    ensures Reaches(s, e, SetTimer(s, t, s.timers[t].(stopRequested := false))
                          .(loop := ReadHandler(t), list := s.list[1..]))
  {
    var s1 := SetTimer(s, t, s.timers[t].(stopRequested := false)).(loop := TakePop(t, true));
    OneStep(s, e, s1);
    Pops(s1, e, t, true);
    Chained(s, e, s1, s1.(loop := ReadHandler(t), list := s.list[1..]));
  }

  /** From Take to the start of executeFromLoop. */
  lemma Begins(s: Sys, e: Env, t: TimerId)
    requires Closed(s) && s.loop == Take && e.now <= s.now && s.list != [] && s.list[0] == t
    requires s.timers[t].expiry <= e.now && s.timers[t].state == Queued
    ensures Reaches(s, e, SetTimer(s, t, Begun(s.timers[t])).(loop := ReadHandler(t), list := s.list[1..]))
  {
    var x := s.timers[t].(state := Executing);
    var s1 := SetTimer(s, t, x).(loop := TakeReset(t));
    var s2 := SetTimer(s, t, Begun(s.timers[t])).(loop := ReadHandler(t), list := s.list[1..]);
    Exchanges(s, e, t);
    ResetsAndPops(s1, e, t);
    Overwrite(s.timers, t, x, Begun(s.timers[t]));
    Chained(s, e, s1, s2);
  }

  lemma Pops(s: Sys, e: Env, t: TimerId, ok: bool)
    requires Closed(s) && s.loop == TakePop(t, ok) && s.list != []
    ensures Reaches(s, e, s.(loop := if ok then ReadHandler(t) else Timeout, list := s.list[1..]))
  {
    assert s.timers[t := s.timers[t]] == s.timers;
    OneStep(s, e, s.(loop := if ok then ReadHandler(t) else Timeout, list := s.list[1..]));
  }

  /** An expired timer that is not Queued. */
  lemma Refuses(s: Sys, e: Env, t: TimerId)
    requires Closed(s) && s.loop == Take && e.now <= s.now && s.list != [] && s.list[0] == t
    requires s.timers[t].expiry <= e.now && s.timers[t].state != Queued
    ensures Reaches(s, e, s.(loop := Timeout, list := s.list[1..]))
  {
    var s1, s2 := s.(loop := TakeCas(t)), s.(loop := TakePop(t, false));
    OneStep(s, e, s1);
    Writes(s1, e, t, s.timers[t], TakePop(t, false));
    assert s.timers[t := s.timers[t]] == s.timers;
    assert SetTimer(s1, t, s.timers[t]).(loop := TakePop(t, false)) == s2;
    Pops(s2, e, t, false);
    Chained(s, e, s1, s2);
    Chained(s, e, s2, s.(loop := Timeout, list := s.list[1..]));
  }

  /** A step that only moves. */
  lemma Moves(s: Sys, e: Env, t: TimerId, l: LoopPc)
    requires Closed(s) && LoopEnabled(s, e.At(s.loop)) && LoopTimer(s.loop) == t
    requires !s.loop.TakePop? && !s.loop.RqList? && !s.loop.RqListWake? && !s.loop.RqUnlist? && !s.loop.RqUnlistWake?
    requires LoopRecord(s.loop, s.timers[t], e.At(s.loop)) == s.timers[t]
    requires l == HoldingNext(s.loop, s.timers[t], e.At(s.loop))
    ensures Reaches(s, e, s.(loop := l))
  {
    Writes(s, e, t, s.timers[t], l);
    assert s.timers[t := s.timers[t]] == s.timers;
  }

  lemma Answers(s: Sys, e: Env, t: TimerId)
    requires Closed(s) && s.loop == ReadHandler(t)
    ensures Reaches(s, e, s.(loop := ReadConfig(t, s.timers[t].hasHandler && e.answers(t))))
  {
    if s.timers[t].hasHandler {
      var s1 := s.(loop := Callback(t));
      Moves(s, e, t, Callback(t));
      Moves(s1, e, t, ReadConfig(t, e.answers(t)));
      Chained(s, e, s1, s.(loop := ReadConfig(t, e.answers(t))));
    } else {
      Moves(s, e, t, ReadConfig(t, false));
    }
  }

  /** The callback and the decision. */
  lemma Decides(s: Sys, e: Env, t: TimerId)
    requires Closed(s) && s.loop == ReadHandler(t)
    ensures Reaches(s, e, s.(loop := CheckStop(t, Keeps(s.timers[t], e.answers(t)), s.timers[t].interval)))
  {
    var s1 := s.(loop := ReadConfig(t, s.timers[t].hasHandler && e.answers(t)));
    var l := CheckStop(t, Keeps(s.timers[t], e.answers(t)), s.timers[t].interval);
    Answers(s, e, t);
    Moves(s1, e, t, l);
    Chained(s, e, s1, s.(loop := l));
  }

  lemma StoresStopped(s: Sys, e: Env, t: TimerId)
    requires Closed(s) && s.loop == EndStopped(t)
    ensures Reaches(s, e, SetTimer(s, t, s.timers[t].(state := Stopped)).(loop := Signal(t)))
  {
    OneStep(s, e, SetTimer(s, t, s.timers[t].(state := Stopped)).(loop := Signal(t)));
  }

  /** A timer not kept ends Stopped. */
  lemma Stops(s: Sys, e: Env, t: TimerId, interval: nat)
    requires Closed(s) && s.loop == CheckStop(t, false, interval)
    ensures Reaches(s, e, SetTimer(s, t, s.timers[t].(state := Stopped)).(loop := Timeout))
  {
    var s1, s2 := s.(loop := EndStopped(t)), SetTimer(s, t, s.timers[t].(state := Stopped)).(loop := Signal(t));
    Moves(s, e, t, EndStopped(t));
    StoresStopped(s1, e, t);
    Moves(s2, e, t, Timeout);
    Chained(s, e, s1, s2);
    Chained(s, e, s2, s2.(loop := Timeout));
  }

  lemma Pends(s: Sys, e: Env, t: TimerId)
    requires Closed(s) && s.loop == StorePending(t)
    ensures Reaches(s, e, SetTimer(s, t, s.timers[t].(state := RequeuePending)).(loop := RqLoad(t)))
  {
    OneStep(s, e, SetTimer(s, t, s.timers[t].(state := RequeuePending)).(loop := RqLoad(t)));
  }

  lemma Stores(s: Sys, e: Env, t: TimerId, interval: nat)
    requires Closed(s) && s.loop == Rearm(t, interval) && e.now <= s.now
    ensures Reaches(s, e, SetTimer(s, t, s.timers[t].(expiry := e.now + interval)).(loop := StorePending(t)))
  {
    OneStep(s, e, SetTimer(s, t, s.timers[t].(expiry := e.now + interval)).(loop := StorePending(t)));
  }

  /** A timer kept is re-armed and pending. */
  lemma Rearms(s: Sys, e: Env, t: TimerId, interval: nat, x: Timer)
    requires Closed(s) && s.loop == CheckStop(t, true, interval) && !s.timers[t].stopRequested && e.now <= s.now
    requires x == s.timers[t].(expiry := e.now + interval, state := RequeuePending)
    ensures Reaches(s, e, SetTimer(s, t, x).(loop := RqLoad(t)))
  {
    var y := s.timers[t].(expiry := e.now + interval);
    var s1, s2 := s.(loop := Rearm(t, interval)), SetTimer(s, t, y).(loop := StorePending(t));
    Moves(s, e, t, Rearm(t, interval));
    Stores(s1, e, t, interval);
    Pends(s2, e, t);
    Overwrite(s.timers, t, y, x);
    Chained(s, e, s1, s2);
    Chained(s, e, s2, SetTimer(s, t, x).(loop := RqLoad(t)));
  }

  /** requeueFromLoop up to its list section. */
  lemma Checks(s: Sys, e: Env, t: TimerId)
    requires Closed(s) && s.loop == RqLoad(t) && s.timers[t].state == RequeuePending && !s.timers[t].stopRequested
    ensures Reaches(s, e, s.(loop := RqList(t)))
  {
    var s1 := s.(loop := RqCheck(t));
    Moves(s, e, t, RqCheck(t));
    Moves(s1, e, t, RqList(t));
    Chained(s, e, s1, s.(loop := RqList(t)));
  }

  lemma Section(s: Sys, e: Env, t: TimerId)
    requires Closed(s) && s.loop == RqList(t) && t !in s.list
    ensures Reaches(s, e, Insert(s, t).(loop := RqListWake(t)))
  {
    assert s.timers[t := s.timers[t]] == s.timers;
    assert Keys(s.(loop := RqListWake(t))) == Keys(s);
    OneStep(s, e, Insert(s, t).(loop := RqListWake(t)));
  }

  /** The list section of requeueFromLoop. */
  lemma Lists(s: Sys, e: Env, t: TimerId)
    requires Closed(s) && s.loop == RqLoad(t) && t !in s.list
    requires s.timers[t].state == RequeuePending && !s.timers[t].stopRequested
    ensures Reaches(s, e, Insert(s, t).(loop := RqListWake(t)))
  {
    var s1 := s.(loop := RqList(t));
    Checks(s, e, t);
    Section(s1, e, t);
    assert Keys(s1) == Keys(s);
    Chained(s, e, s1, Insert(s, t).(loop := RqListWake(t)));
  }

  lemma Wakes(s: Sys, e: Env, t: TimerId)
    requires Closed(s) && s.loop == RqListWake(t) && !s.timers[t].stopRequested
    ensures Reaches(s, e, s.(loop := RqQueued(t), pipe := Send(s.pipe, Wakeup)))
  {
    var s1 := s.(loop := RqRecheck(t), pipe := Send(s.pipe, Wakeup));
    assert s.timers[t := s.timers[t]] == s.timers;
    OneStep(s, e, s1);
    Moves(s1, e, t, RqQueued(t));
    Chained(s, e, s1, s1.(loop := RqQueued(t)));
  }

  lemma Finishes(s: Sys, e: Env, t: TimerId)
    requires Closed(s) && s.loop == RqQueued(t)
    ensures Reaches(s, e, SetTimer(s, t, s.timers[t].(state := Queued)).(loop := Timeout))
  {
    var s1 := SetTimer(s, t, s.timers[t].(state := Queued)).(loop := Signal(t));
    OneStep(s, e, s1);
    Moves(s1, e, t, Timeout);
    Chained(s, e, s1, s1.(loop := Timeout));
  }

  /** Its end: the wake-up, the second look at the stop request, and Queued. */
  lemma Queues(s: Sys, e: Env, t: TimerId)
    requires Closed(s) && s.loop == RqListWake(t) && !s.timers[t].stopRequested
    ensures Reaches(s, e, SetTimer(s, t, s.timers[t].(state := Queued)).(loop := Timeout, pipe := Send(s.pipe, Wakeup)))
  {
    var s1 := s.(loop := RqQueued(t), pipe := Send(s.pipe, Wakeup));
    Wakes(s, e, t);
    Finishes(s1, e, t);
    Chained(s, e, s1, SetTimer(s1, t, s.timers[t].(state := Queued)).(loop := Timeout));
  }

  /** The same list and the same fields, the insertion history apart. */
  ghost predicate Alike(a: Board, b: Board) {
    && a.list == b.list && a.timers.Keys == b.timers.Keys
    && forall u :: u in b.timers ==> a.timers[u] == b.timers[u].(stamp := a.timers[u].stamp)
  }

  ghost predicate Shows(s: Sys, b: Board) {
    Alike(Board(s.list, s.timers), b)
  }

  /** What the insertion leaves, for a timer off the list. */
  lemma Inserted(s: Sys, t: TimerId, x: Timer, r: Timer)
    requires Closed(s) && t in s.timers && t !in s.list && r.expiry == x.expiry
    ensures Closed(SetTimer(s, t, x))
    ensures Insert(SetTimer(s, t, x), t).list == InsertByKey(s.list, t, s.timers[t := r])
    ensures Insert(SetTimer(s, t, x), t).timers == s.timers[t := x.(stamp := s.inserts)]
  {
    assert Keys(SetTimer(s, t, x)) == KeysOf(s.list, s.timers[t := r]);
    Overwrite(s.timers, t, x, x.(stamp := s.inserts));
  }

  lemma ShowsKept(m: map<TimerId, Timer>, t: TimerId, x: Timer, r: Timer, k: nat)
    requires t in m && r == x.(state := Queued)
    ensures var m', after := m[t := x.(stamp := k)][t := r.(stamp := k)], m[t := r];
            m'.Keys == after.Keys && forall u :: u in after ==> m'[u] == after[u].(stamp := m'[u].stamp)
  {
  }

  lemma KeptTurn(s: Sys, e: Env, t: TimerId) returns (s': Sys)
    requires Closed(s) && t in s.timers && s.loop == CheckStop(t, true, s.timers[t].interval)
    requires t !in s.list && e.now <= s.now && !s.timers[t].stopRequested && Keeps(s.timers[t], e.answers(t))
    ensures Reaches(s, e, s') && s'.loop == Timeout
    ensures var after := s.timers[t := Ended(s.timers[t], e.answers(t), e.now)];
            Shows(s', Board(InsertByKey(s.list, t, after), after))
  {
    var r := Ended(s.timers[t], e.answers(t), e.now);
    var x := r.(state := RequeuePending);
    s' := Requeues(s, e, t, s.timers[t].interval, x);
    Inserted(s, t, x, r);
    ShowsKept(s.timers, t, x, r, s.inserts);
  }

  /** The insertion does not depend on where the loop is. */
  lemma InsertElsewhere(s: Sys, t: TimerId, x: Timer, l: LoopPc)
    requires Closed(s) && t in s.timers && LoopTimer(l) == t
    ensures Closed(SetTimer(s, t, x)) && Closed(SetTimer(s, t, x).(loop := l))
    ensures var i, j := Insert(SetTimer(s, t, x).(loop := l), t), Insert(SetTimer(s, t, x), t);
            i.list == j.list && i.timers == j.timers && i.pipe == s.pipe && t in i.timers
  {
    assert Keys(SetTimer(s, t, x).(loop := l)) == Keys(SetTimer(s, t, x));
  }

  lemma Requeues(s: Sys, e: Env, t: TimerId, interval: nat, x: Timer) returns (s': Sys)
    requires Closed(s) && s.loop == CheckStop(t, true, interval) && t !in s.list && e.now <= s.now
    requires !s.timers[t].stopRequested && x == s.timers[t].(expiry := e.now + interval, state := RequeuePending)
    ensures Reaches(s, e, s') && s'.loop == Timeout
    ensures Closed(SetTimer(s, t, x))
    ensures var i := Insert(SetTimer(s, t, x), t);
            s'.list == i.list && t in i.timers && s'.timers == i.timers[t := i.timers[t].(state := Queued)]
  {
    var s1 := SetTimer(s, t, x).(loop := RqLoad(t));
    var s2 := Insert(s1, t).(loop := RqListWake(t));
    s' := SetTimer(s2, t, s2.timers[t].(state := Queued)).(loop := Timeout, pipe := Send(s2.pipe, Wakeup));
    Rearms(s, e, t, interval, x);
    Lists(s1, e, t);
    Queues(s2, e, t);
    Chained(s, e, s1, s2);
    Chained(s, e, s2, s');
    InsertElsewhere(s, t, x, RqLoad(t));
  }

  lemma DroppedTurn(s: Sys, e: Env, t: TimerId) returns (s': Sys)
    requires Closed(s) && t in s.timers && s.loop == CheckStop(t, false, s.timers[t].interval)
    requires !Keeps(s.timers[t], e.answers(t))
    ensures Reaches(s, e, s') && s'.loop == Timeout
    ensures Shows(s', Board(s.list, s.timers[t := Ended(s.timers[t], e.answers(t), e.now)]))
  {
    Stops(s, e, t, s.timers[t].interval);
    s' := SetTimer(s, t, s.timers[t].(state := Stopped)).(loop := Timeout);
  }

  /** Undisturbed, the loop's steps from Take to Timeout are one turn. */
  lemma UndisturbedTurn(s: Sys, e: Env) returns (s': Sys)
    requires TimersInv(s) && s.loop == Take && e.now <= s.now
    ensures Reaches(s, e, s') && s'.loop == Timeout
    ensures Shows(s', RunOnce(Board(s.list, s.timers), e.now, e.answers))
  {
    SortedIsDistinct(s);
    if s.list == [] || s.timers[s.list[0]].expiry > e.now {
      s' := s.(loop := Timeout);
      OneStep(s, e, s');
    } else if s.timers[s.list[0]].state != Queued {
      s' := s.(loop := Timeout, list := s.list[1..]);
      Refuses(s, e, s.list[0]);
    } else {
      s' := ExecutedTurn(s, e, s.list[0]);
    }
  }

  /** On the way its front timer's callback is called, if the timer is due and Queued and has a handler. */
  lemma TurnCallsBack(s: Sys, e: Env) returns (m: Sys)
    requires TimersInv(s) && s.loop == Take && e.now <= s.now && s.list != []
    requires s.timers[s.list[0]].expiry <= e.now && s.timers[s.list[0]].state == Queued
    requires s.timers[s.list[0]].hasHandler
    ensures Reaches(s, e, m) && m.loop == Callback(s.list[0])
  {
    var t := s.list[0];
    var s1 := SetTimer(s, t, Begun(s.timers[t])).(loop := ReadHandler(t), list := s.list[1..]);
    Begins(s, e, t);
    m := s1.(loop := Callback(t));
    Moves(s1, e, t, Callback(t));
    Chained(s, e, s1, m);
  }

  lemma ExecutedTurn(s: Sys, e: Env, t: TimerId) returns (s': Sys)
    requires Closed(s) && Distinct(s.list) && s.loop == Take && e.now <= s.now && s.list != [] && s.list[0] == t
    requires s.timers[t].expiry <= e.now && s.timers[t].state == Queued
    ensures Reaches(s, e, s') && s'.loop == Timeout
    ensures Shows(s', RunOnce(Board(s.list, s.timers), e.now, e.answers))
  {
    var r := Begun(s.timers[t]);
    var s1 := SetTimer(s, t, r).(loop := ReadHandler(t), list := s.list[1..]);
    Begins(s, e, t);
    s' := EndOfTurn(s1, e, t);
    Chained(s, e, s1, s');
    Overwrite(s.timers, t, r, Ended(r, e.answers(t), e.now));
  }

  /** executeFromLoop and requeueFromLoop. */
  lemma EndOfTurn(s: Sys, e: Env, t: TimerId) returns (s': Sys)
    requires Closed(s) && s.loop == ReadHandler(t) && t !in s.list && e.now <= s.now && !s.timers[t].stopRequested
    ensures Reaches(s, e, s') && s'.loop == Timeout
    ensures var after := s.timers[t := Ended(s.timers[t], e.answers(t), e.now)];
            Shows(s', Board(if Keeps(s.timers[t], e.answers(t)) then InsertByKey(s.list, t, after) else s.list, after))
  {
    var r := s.timers[t];
    Decides(s, e, t);
    var s1 := s.(loop := CheckStop(t, Keeps(r, e.answers(t)), r.interval));
    if Keeps(r, e.answers(t)) {
      s' := KeptTurn(s1, e, t);
    } else {
      s' := DroppedTurn(s1, e, t);
    }
    Chained(s, e, s1, s');
  }
}
