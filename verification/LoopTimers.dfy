/** MainLoop's timer list as the methods of MainLoop.cpp and Timer.cpp change it, on one thread and at one clock
  * value: each call is proved equal to its function on boards, and the drain loop to `Drained`. */
module LoopTimers {
  import opened Options
  import opened TimerOrder
  import opened TimerProtocol
  import opened TimerDrain

  class LoopTimerList {
    const answers: Answers              // what the handlers answer
    var mTimers: seq<TimerId>
    var timers: map<TimerId, Timer>     // the fields of every Timer object

    ghost var ran: seq<TimerId>         // the timers whose callback was called, in order

    ghost function View(): Board
      reads this
    {
      Board(mTimers, timers)
    }

    ghost predicate Valid()
      reads this
    {
      Good(View())
    }

    constructor (answers: Answers, timers: map<TimerId, Timer>)
      ensures Valid() && mTimers == [] && this.timers == timers && ran == [] && this.answers == answers
    {
      this.answers, this.timers := answers, timers;
      mTimers, ran := [], [];
    }

    /** A timer already listed is reported and left where it is. */
    method InsertTimerLocked(timer: TimerId)
      requires Valid() && timer in timers
      modifies this`mTimers
      ensures Valid()
      ensures mTimers == if timer in old(mTimers) then old(mTimers) else InsertByKey(old(mTimers), timer, timers)
    {
      var found := Find(timer);
      if found != |mTimers| {
        return;
      }
      var pos := FindLater(timers[timer].expiry);
      InsertKeepsGood(mTimers, timer, timers);
      mTimers := mTimers[..pos] + [timer] + mTimers[pos..];
    }

    /** std::find */
    method Find(timer: TimerId) returns (it: nat)
      ensures it == IndexOf(mTimers, timer)
    {
      it := 0;
      while it < |mTimers| && mTimers[it] != timer
        invariant it <= |mTimers|
        invariant IndexOf(mTimers, timer) == it + IndexOf(mTimers[it..], timer)
      {
        it := it + 1;
      }
    }

    /** std::find_if: the first timer that expires later than `expiry`. */
    method FindLater(expiry: nat) returns (it: nat)
      requires forall t :: t in mTimers ==> t in timers
      ensures it == InsertPos(KeysOf(mTimers, timers), expiry)
    {
      it := 0;
      ghost var keys := KeysOf(mTimers, timers);
      while it < |mTimers| && !(expiry < timers[mTimers[it]].expiry)
        invariant it <= |mTimers|
        invariant InsertPos(keys, expiry) == it + InsertPos(keys[it..], expiry)
      {
        it := it + 1;
      }
    }

    method AddTimer(timer: TimerId)
      requires Valid() && timer in timers
      modifies this`mTimers
      ensures Valid()
      ensures mTimers == if timer in old(mTimers) then old(mTimers) else InsertByKey(old(mTimers), timer, timers)
    {
      InsertTimerLocked(timer);
    }

    method RemoveTimer(timer: TimerId)
      requires Valid()
      modifies this`mTimers
      ensures Valid() && mTimers == Erase(old(mTimers), timer) && timer !in mTimers
    {
      EraseKeepsGood(View(), timer);
      EraseDistinct(mTimers, timer);
      var it := 0;
      while it < |mTimers|
        invariant 0 <= it <= |mTimers| && mTimers == old(mTimers)
        invariant forall i :: 0 <= i < it ==> mTimers[i] != timer
      {
        if mTimers[it] == timer {
          mTimers := mTimers[..it] + mTimers[it + 1..];
          break;
        }
        it := it + 1;
      }
    }

    /** The front timer, if it is expired and Queued; an expired timer leaves the list in any case. */
    method TakeExpiredTimerLocked(now: nat) returns (timer: Option<TimerId>)
      requires Valid()
      modifies this`mTimers, this`timers
      ensures Valid()
      ensures mTimers == if Quiet(old(View()), now) then old(mTimers) else old(mTimers)[1..]
      ensures timer == if Quiet(old(View()), now) || old(timers[mTimers[0]]).state != Queued then None
                       else Some(old(mTimers)[0])
      ensures timers == if timer.None? then old(timers)
                        else old(timers)[timer.value := Begun(old(timers)[timer.value])]
    {
      if mTimers == [] {
        return None;
      }
      var front := mTimers[0];
      var expiry := timers[front].expiry;
      if expiry > now {
        return None;
      }
      var canExecute := TryBeginExecuteFromLoop(front);
      assert KeysOf(mTimers[1..], timers) == old(KeysOf(mTimers, timers))[1..];
      mTimers := mTimers[1..];
      timer := if canExecute then Some(front) else None;
    }

    method TryBeginExecuteFromLoop(timer: TimerId) returns (ok: bool)
      requires timer in timers
      modifies this`timers
      ensures ok == (old(timers)[timer].state == Queued)
      ensures timers == if ok then old(timers)[timer := Begun(old(timers)[timer])]
                        else old(timers)
    {
      if timers[timer].state != Queued {
        return false;
      }
      timers := timers[timer := timers[timer].(state := Executing)];
      timers := timers[timer := timers[timer].(stopRequested := false)];
      ok := true;
    }

    method GetNextTimerTimeoutLocked(now: nat) returns (ms: nat)
      requires Valid()
      ensures ms == 0 <==> !Quiet(View(), now)
      ensures ms <= WAIT_TIME_MS
      ensures forall t :: t in mTimers ==> ms == 0 || timers[t].expiry >= now + ms
      ensures ms == WAIT_TIME_MS || ms == 0 || exists t :: t in mTimers && timers[t].expiry == now + ms
    {
      if mTimers == [] {
        return WAIT_TIME_MS;
      }
      var expiry := timers[mTimers[0]].expiry;
      assert forall i :: 0 <= i < |mTimers| ==> KeysOf(mTimers, timers)[0] <= KeysOf(mTimers, timers)[i];
      assert mTimers[0] in mTimers;
      if expiry <= now {
        return 0;
      }
      var diff := expiry - now;
      if diff > WAIT_TIME_MS {
        return WAIT_TIME_MS;
      }
      ms := diff;
    }

    /** With no controller at work the stop request is the one tryBeginExecuteFromLoop cleared. */
    method ExecuteFromLoop(timer: TimerId, now: nat) returns (keep: bool)
      requires timer in timers
      modifies this`timers, this`ran
      ensures var r := old(timers)[timer];
              && keep == (!r.stopRequested && r.hasHandler && answers(timer) && r.repeating && r.interval != INFINITE)
              && timers == old(timers)[timer := if keep then r.(expiry := now + r.interval, state := RequeuePending)
                                                else r.(state := Stopped)]
      ensures ran == old(ran) + if old(timers)[timer].hasHandler then [timer] else []
    {
      var keepByHandler := false;
      if timers[timer].hasHandler {
        ran := ran + [timer];
        keepByHandler := answers(timer);
      }
      var r := timers[timer];
      keep := !r.stopRequested && keepByHandler && r.repeating && r.interval != INFINITE && r.hasHandler;
      if !keep {
        timers := timers[timer := r.(state := Stopped)];
        return false;
      }
      timers := timers[timer := timers[timer].(expiry := now + r.interval)];
      timers := timers[timer := timers[timer].(state := RequeuePending)];
    }

    /** Nothing comes between the two reads of the stop request here, so the second has no branch of its own. */
    method RequeueFromLoop(timer: TimerId)
      requires Valid() && timer in timers && timer !in mTimers
      modifies this`mTimers, this`timers
      ensures Valid()
      ensures var r := old(timers)[timer];
              if r.state != RequeuePending then timers == old(timers) && mTimers == old(mTimers)
              else if r.stopRequested then
                timers == old(timers)[timer := r.(state := Stopped)] && mTimers == old(mTimers)
              else
                && timers == old(timers)[timer := r.(state := Queued)]
                && mTimers == InsertByKey(old(mTimers), timer, timers)
    {
      ghost var before := timers;
      if timers[timer].state != RequeuePending {
        return;
      }
      if timers[timer].stopRequested {
        timers := timers[timer := timers[timer].(state := Stopped)];
        StateMovesNoKey(mTimers, timer, before, timers);
        return;
      }
      AddTimer(timer);
      timers := timers[timer := timers[timer].(state := Queued)];
      StateMovesNoKey(old(mTimers), timer, before, timers);
      StateMovesNoKey(mTimers, timer, before, timers);
    }

    /** The turn of a timer taken for execution: its callback, and the list again if it is kept. */
    method ExecuteAndRequeue(timer: TimerId, now: nat)
      requires Valid() && timer in timers && timer !in mTimers && !timers[timer].stopRequested
      modifies this
      ensures Valid()
      ensures var e := old(timers)[timer];
              && ran == old(ran) + (if e.hasHandler then [timer] else [])
              && timers == old(timers)[timer := Ended(e, answers(timer), now)]
              && mTimers == if Keeps(e, answers(timer)) then InsertByKey(old(mTimers), timer, timers) else old(mTimers)
    {
      ghost var before := timers;
      var keepTimer := ExecuteFromLoop(timer, now);
      OffListIsFree(mTimers, timer, before, timers);
      if keepTimer {
        ghost var x, y := timers[timer], Ended(before[timer], answers(timer), now);
        assert x.(state := Queued) == y && timers == before[timer := x];
        Overwrite(before, timer, x, y);
        RequeueFromLoop(timer);
        assert timers == before[timer := y];
      }
    }

    /** One expired timer at most has its turn; 0 asks for another call. */
    method RunTimers(now: nat) returns (ms: nat)
      requires Valid()
      modifies this
      ensures Valid() && View() == RunOnce(old(View()), now, answers)
      ensures ran == old(ran) + RanOnce(old(View()), now)
      ensures (ms == 0 <==> !Quiet(View(), now)) && ms <= WAIT_TIME_MS
      ensures forall t :: t in mTimers ==> ms == 0 || timers[t].expiry >= now + ms
    {
      ghost var b := View();
      var expiredTimer := TakeExpiredTimerLocked(now);
      if expiredTimer.None? {
        NothingToRun(b, now, answers);
      } else {
        var timer := expiredTimer.value;
        FrontIsOffTheRest(b);
        ExecuteAndRequeue(timer, now);
        TurnInTwoSteps(b, now, answers, timer, mTimers, timers);
      }
      ms := GetNextTimerTimeoutLocked(now);
    }

    /** The timer loop of loopOnce. Without the second requires it does not end (DrainEndsIff). */
    method DrainTimers(now: nat) returns (timeToWait: nat)
      requires Valid()
      requires Ends(View(), now, answers)
      modifies this
      ensures Valid() && View() == Drained(old(View()), now, answers)
      ensures ran == old(ran) + CalledBack(old(mTimers)[..DueCount(old(View()), now)], old(timers))
      ensures 0 < timeToWait <= WAIT_TIME_MS && forall t :: t in mTimers ==> timers[t].expiry >= now + timeToWait
    {
      ghost var b, n := View(), DueCount(View(), now);
      Outset(b, now, answers);
      timeToWait := RunTimersUntilQuiet(now, [], b.list[..n], b.list[n..], b.timers);
      Outcome(b, now, answers, View());
    }

    /** The loop itself; `done`, `ahead` and `later` say how far the drain has got. */
    method RunTimersUntilQuiet(now: nat, ghost done: seq<TimerId>, ghost ahead: seq<TimerId>, ghost later: seq<TimerId>,
                               ghost before: map<TimerId, Timer>) returns (timeToWait: nat)
      requires Valid() && InTheMiddle(done, ahead, later, before, now, answers, View())
      modifies this
      ensures Valid() && InTheMiddle(done + ahead, [], later, before, now, answers, View())
      ensures ran == old(ran) + CalledBack(ahead, before)
      ensures 0 < timeToWait <= WAIT_TIME_MS && forall t :: t in mTimers ==> timers[t].expiry >= now + timeToWait
    {
      ghost var d, a := done, ahead;
      timeToWait, d, a := OneTurn(now, d, a, later, before);
      while timeToWait == 0
        invariant Valid() && d + a == done + ahead
        invariant InTheMiddle(d, a, later, before, now, answers, View())
        invariant ran + CalledBack(a, before) == old(ran) + CalledBack(ahead, before)
        invariant (timeToWait == 0 <==> a != []) && timeToWait <= WAIT_TIME_MS
        invariant forall t :: t in mTimers ==> timeToWait == 0 || timers[t].expiry >= now + timeToWait
        decreases |a|
      {
        timeToWait, d, a := OneTurn(now, d, a, later, before);
      }
      assert d + [] == d;
    }

    /** runTimers on the way through a drain. */
    method OneTurn(now: nat, ghost d: seq<TimerId>, ghost a: seq<TimerId>, ghost later: seq<TimerId>,
                   ghost before: map<TimerId, Timer>)
      returns (ms: nat, ghost d': seq<TimerId>, ghost a': seq<TimerId>)
      requires Valid() && InTheMiddle(d, a, later, before, now, answers, View())
      modifies this
      ensures Valid() && InTheMiddle(d', a', later, before, now, answers, View())
      ensures d' + a' == d + a && (|a'| < |a| || a' == a == [])
      ensures ran + CalledBack(a', before) == old(ran) + CalledBack(a, before)
      ensures (ms == 0 <==> a' != []) && ms <= WAIT_TIME_MS
      ensures forall t :: t in mTimers ==> ms == 0 || timers[t].expiry >= now + ms
    {
      d', a' := AfterTurn(d, a, later, before, now, answers, View(), ran);
      ms := RunTimers(now);
    }
  }

  /** Beginning an execution and ending it is one turn. */
  lemma TurnInTwoSteps(b: Board, now: nat, answers: Answers, t: TimerId, list: seq<TimerId>,
                       timers: map<TimerId, Timer>)
    requires (forall u :: u in b.list ==> u in b.timers) && !Quiet(b, now)
    requires t == b.list[0] && b.timers[t].state == Queued
    requires timers == b.timers[t := Begun(b.timers[t])][t := Ended(Begun(b.timers[t]), answers(t), now)]
    requires (forall u :: u in b.list[1..] ==> u in timers)
          && list == if Keeps(b.timers[t], answers(t)) then InsertByKey(b.list[1..], t, timers) else b.list[1..]
    ensures Board(list, timers) == RunOnce(b, now, answers)
    ensures RanOnce(b, now) == if b.timers[t].hasHandler then [t] else []
  {
    Overwrite(b.timers, t, Begun(b.timers[t]), Ended(Begun(b.timers[t]), answers(t), now));
  }

  lemma FrontIsOffTheRest(b: Board)
    requires Good(b) && b.list != []
    ensures b.list[0] !in b.list[1..]
  {
  }

  /** A timer off the list can change its fields freely. */
  lemma OffListIsFree(list: seq<TimerId>, t: TimerId, m: map<TimerId, Timer>, m': map<TimerId, Timer>)
    requires t !in list && Good(Board(list, m)) && m'.Keys == m.Keys && forall u :: u in m && u != t ==> m'[u] == m[u]
    ensures Good(Board(list, m'))
  {
    assert KeysOf(list, m') == KeysOf(list, m);
  }

  lemma StateMovesNoKey(list: seq<TimerId>, t: TimerId, m: map<TimerId, Timer>, m': map<TimerId, Timer>)
    requires t in m && (forall u :: u in list ==> u in m)
    requires m'.Keys == m.Keys && m'[t].expiry == m[t].expiry && forall u :: u in m && u != t ==> m'[u] == m[u]
    ensures KeysOf(list, m') == KeysOf(list, m)
    ensures InsertByKey(list, t, m') == InsertByKey(list, t, m)
  {
    assert KeysOf(list, m) == KeysOf(list, m');
  }

  lemma EraseKeepsGood(b: Board, t: TimerId)
    requires Good(b)
    ensures Good(Board(Erase(b.list, t), b.timers))
  {
  }
}
