/** The timer list seen sequentially at one clock value, as values: what `while (runTimers() == 0)` does when
  * callbacks touch no timers and no controller interferes. */
module TimerDrain {
  import opened TimerOrder
  import opened TimerProtocol

  /** The listed timers and every timer's fields. */
  datatype Board = Board(list: seq<TimerId>, timers: map<TimerId, Timer>)

  /** What each handler answers when its timer expires. */
  type Answers = TimerId -> bool

  ghost predicate Ascending(keys: seq<nat>) {
    forall i, j :: 0 <= i < j < |keys| ==> keys[i] <= keys[j]
  }

  /** Every listed timer exists, once, and the list is sorted by expiry. */
  ghost predicate Good(b: Board) {
    && (forall t :: t in b.list ==> t in b.timers)
    && Distinct(b.list)
    && Ascending(KeysOf(b.list, b.timers))
  }

  /** How many timers at the front are expired. */
  function DueCount(b: Board, now: nat): (n: nat)
    requires forall t :: t in b.list ==> t in b.timers
    ensures n <= |b.list|
  {
    InsertPos(KeysOf(b.list, b.timers), now)
  }

  lemma DueAreTheExpired(b: Board, now: nat, i: nat)
    requires Good(b) && i < |b.list|
    ensures i < DueCount(b, now) <==> b.timers[b.list[i]].expiry <= now
  {
  }

  predicate Keeps(r: Timer, yes: bool) {
    yes && r.repeating && r.interval != INFINITE && r.hasHandler
  }

  /** tryBeginExecuteFromLoop, on a Queued timer. */
  function Begun(r: Timer): Timer {
    r.(state := Executing, stopRequested := false)
  }

  /** The end of an execution that no controller disturbs: queued again by a new expiry, or stopped. */
  function Ended(e: Timer, yes: bool, now: nat): Timer {
    if Keeps(e, yes) then e.(expiry := now + e.interval, state := Queued) else e.(state := Stopped)
  }

  /** A timer after its turn; one that was not Queued is only unlisted. */
  function Fired(r: Timer, yes: bool, now: nat): Timer {
    if r.state == Queued then Ended(Begun(r), yes, now) else r
  }

  predicate Requeues(r: Timer, yes: bool) {
    r.state == Queued && Keeps(r, yes)
  }

  /** Of two stores to one timer the second remains. */
  lemma Overwrite(m: map<TimerId, Timer>, t: TimerId, x: Timer, y: Timer)
    ensures m[t := x][t := y] == m[t := y]
  {
  }

  function InsertByKey(list: seq<TimerId>, t: TimerId, timers: map<TimerId, Timer>): (r: seq<TimerId>)
    requires t in timers && forall u :: u in list ==> u in timers
    ensures forall u :: u in r <==> u == t || u in list
  {
    InsertAt(list, InsertPos(KeysOf(list, timers), timers[t].expiry), t)
  }

  /** One call of runTimers. */
  function RunOnce(b: Board, now: nat, answers: Answers): (b': Board)
    requires forall t :: t in b.list ==> t in b.timers
    ensures forall t :: t in b'.list ==> t in b'.timers
  {
    if b.list == [] || b.timers[b.list[0]].expiry > now then b
    else
      var t, rest := b.list[0], b.list[1..];
      var timers := b.timers[t := Fired(b.timers[t], answers(t), now)];
      Board(if Requeues(b.timers[t], answers(t)) then InsertByKey(rest, t, timers) else rest, timers)
  }

  /** A Queued timer with a handler has its callback called on its turn. */
  predicate CallsBack(r: Timer) {
    r.state == Queued && r.hasHandler
  }

  /** The timers whose callback that call runs. */
  function RanOnce(b: Board, now: nat): seq<TimerId>
    requires forall t :: t in b.list ==> t in b.timers
  {
    if b.list != [] && b.timers[b.list[0]].expiry <= now && CallsBack(b.timers[b.list[0]]) then [b.list[0]] else []
  }

  /** The timers of `due` whose callbacks are called, in list order. */
  function CalledBack(due: seq<TimerId>, timers: map<TimerId, Timer>): (r: seq<TimerId>)
    requires forall t :: t in due ==> t in timers
    ensures forall t :: t in r <==> t in due && CallsBack(timers[t])
  {
    if due == [] then []
    else (if CallsBack(timers[due[0]]) then [due[0]] else []) + CalledBack(due[1..], timers)
  }

  /** Every timer's fields after the timers of `due` had their turn. */
  function After(timers: map<TimerId, Timer>, due: seq<TimerId>, now: nat, answers: Answers): map<TimerId, Timer> {
    map t | t in timers :: if t in due then Fired(timers[t], answers(t), now) else timers[t]
  }

  /** `rest` with the repeating timers of `due` inserted again, one after the other. */
  function Requeued(due: seq<TimerId>, rest: seq<TimerId>, before: map<TimerId, Timer>, after: map<TimerId, Timer>,
                    answers: Answers): (r: seq<TimerId>)
    requires forall t :: t in due || t in rest ==> t in before && t in after
    ensures forall t :: t in r <==> t in rest || (t in due && Requeues(before[t], answers(t)))
  {
    if due == [] then rest
    else
      var k := |due| - 1;
      assert forall t :: t in due <==> t == due[k] || t in due[..k] by {
        assert due == due[..k] + [due[k]];
      }
      var r := Requeued(due[..k], rest, before, after, answers);
      if Requeues(before[due[k]], answers(due[k])) then InsertByKey(r, due[k], after) else r
  }

  /** What the drain loop leaves: the expired timers gone from the front, the repeating ones back by their new
    * expiry. */
  function Drained(b: Board, now: nat, answers: Answers): Board
    requires forall t :: t in b.list ==> t in b.timers
  {
    var n := DueCount(b, now);
    var after := After(b.timers, b.list[..n], now, answers);
    assert b.list == b.list[..n] + b.list[n..];
    Board(Requeued(b.list[..n], b.list[n..], b.timers, after, answers), after)
  }

  // ---------------------------------------------------------------- inserting behind a prefix

  lemma {:induction false} InsertBehind(keys: seq<nat>, more: seq<nat>, key: nat)
    requires forall i :: 0 <= i < |keys| ==> keys[i] <= key
    ensures InsertPos(keys + more, key) == |keys| + InsertPos(more, key)
  {
    if keys == [] {
      assert keys + more == more;
    } else {
      InsertBehind(keys[1..], more, key);
      assert (keys + more)[1..] == keys[1..] + more;
    }
  }

  lemma InsertByKeyBehind(front: seq<TimerId>, back: seq<TimerId>, t: TimerId, timers: map<TimerId, Timer>)
    requires t in timers && (forall u :: u in front || u in back ==> u in timers)
    requires forall u :: u in front ==> timers[u].expiry <= timers[t].expiry
    ensures forall u :: u in front + back ==> u in timers
    ensures InsertByKey(front + back, t, timers) == front + InsertByKey(back, t, timers)
  {
    KeysOfJoin(front, back, timers);
    InsertBehind(KeysOf(front, timers), KeysOf(back, timers), timers[t].expiry);
    InsertAtBehind(front, back, InsertPos(KeysOf(back, timers), timers[t].expiry), t);
  }

  lemma KeysOfJoin(front: seq<TimerId>, back: seq<TimerId>, timers: map<TimerId, Timer>)
    requires forall u :: u in front || u in back ==> u in timers
    ensures forall u :: u in front + back ==> u in timers
    ensures KeysOf(front + back, timers) == KeysOf(front, timers) + KeysOf(back, timers)
  {
    forall u | u in front + back ensures u in timers {
    }
  }

  lemma InsertAtBehind(front: seq<TimerId>, back: seq<TimerId>, p: nat, t: TimerId)
    requires p <= |back|
    ensures InsertAt(front + back, |front| + p, t) == front + InsertAt(back, p, t)
  {
  }

  lemma InsertByKeyAgrees(list: seq<TimerId>, t: TimerId, m: map<TimerId, Timer>, m': map<TimerId, Timer>)
    requires t in m && t in m' && m[t] == m'[t]
    requires forall u :: u in list ==> u in m && u in m' && m[u] == m'[u]
    ensures InsertByKey(list, t, m) == InsertByKey(list, t, m')
  {
    assert KeysOf(list, m) == KeysOf(list, m');
  }

  // ---------------------------------------------------------------- the loop, turn by turn

  /** The list in three parts: timers that had their turn, expired timers ahead, and the rest. */
  ghost predicate Parts(done: seq<TimerId>, ahead: seq<TimerId>, later: seq<TimerId>,
                        before: map<TimerId, Timer>, now: nat)
  {
    && (forall t :: t in done || t in ahead || t in later ==> t in before)
    && (forall t :: t in ahead ==> t !in done && t !in later)
    && (forall t :: t in later ==> t !in done)
    && Distinct(ahead)
    && (forall t :: t in ahead ==> before[t].expiry <= now)
    && (forall t :: t in later ==> before[t].expiry > now)
  }

  /** The board when `done` had their turn and `ahead` not. */
  function Midway(done: seq<TimerId>, ahead: seq<TimerId>, later: seq<TimerId>, before: map<TimerId, Timer>,
                  now: nat, answers: Answers): (b: Board)
    requires forall t :: t in done || t in ahead || t in later ==> t in before
    ensures forall t :: t in b.list ==> t in b.timers
  {
    var after := After(before, done + ahead, now, answers);
    Board(ahead + Requeued(done, later, before, after, answers), After(before, done, now, answers))
  }

  /** No timer of `due` is requeued with interval 0. */
  ghost predicate MovesOn(due: seq<TimerId>, before: map<TimerId, Timer>, answers: Answers)
    requires forall t :: t in due ==> t in before
  {
    forall t :: t in due && Requeues(before[t], answers(t)) ==> before[t].interval >= 1
  }

  lemma TurnTimers(done: seq<TimerId>, t: TimerId, before: map<TimerId, Timer>, now: nat, answers: Answers)
    requires t in before && t !in done
    ensures After(before, done, now, answers)[t := Fired(before[t], answers(t), now)]
         == After(before, done + [t], now, answers)
  {
  }

  /** Where a requeued timer goes: behind the expired timers still ahead. */
  lemma TurnInserts(t: TimerId, ahead: seq<TimerId>, back: seq<TimerId>,
                    timers: map<TimerId, Timer>, after: map<TimerId, Timer>)
    requires t in timers && t in after && timers[t] == after[t]
    requires forall u :: u in ahead ==> u in timers && timers[u].expiry <= timers[t].expiry
    requires forall u :: u in back ==> u in timers && u in after && timers[u] == after[u]
    ensures InsertByKey(ahead + back, t, timers) == ahead + InsertByKey(back, t, after)
  {
    InsertByKeyBehind(ahead, back, t, timers);
    InsertByKeyAgrees(back, t, timers, after);
  }

  lemma RequeuedSnoc(done: seq<TimerId>, t: TimerId, later: seq<TimerId>, before: map<TimerId, Timer>,
                     after: map<TimerId, Timer>, answers: Answers)
    requires forall u :: u in done || u == t || u in later ==> u in before && u in after
    ensures Requeued(done + [t], later, before, after, answers)
         == var r := Requeued(done, later, before, after, answers);
            if Requeues(before[t], answers(t)) then InsertByKey(r, t, after) else r
  {
    assert (done + [t])[..|done|] == done;
  }

  lemma TurnParts(done: seq<TimerId>, ahead: seq<TimerId>, later: seq<TimerId>, before: map<TimerId, Timer>, now: nat)
    requires Parts(done, ahead, later, before, now) && ahead != []
    ensures Parts(done + [ahead[0]], ahead[1..], later, before, now)
  {
    assert ahead == [ahead[0]] + ahead[1..];
    assert ahead[0] in ahead;
    forall u | u in ahead[1..] ensures u in ahead && u != ahead[0] {
    }
  }

  /** What a turn finds at the front, and what is behind it. */
  lemma TurnFront(done: seq<TimerId>, t: TimerId, rest: seq<TimerId>, later: seq<TimerId>,
                  before: map<TimerId, Timer>, now: nat, answers: Answers)
    requires t !in done && forall u :: u in done || u == t || u in rest || u in later ==> u in before
    ensures var b := Midway(done, [t] + rest, later, before, now, answers);
            var b' := Midway(done + [t], rest, later, before, now, answers);
            var after := After(before, done + ([t] + rest), now, answers);
            var back := Requeued(done, later, before, after, answers);
            && b.list != [] && b.list[0] == t && b.timers[t] == before[t] && b.list[1..] == rest + back
            && b'.timers == b.timers[t := Fired(before[t], answers(t), now)]
            && b'.list == rest + if Requeues(before[t], answers(t)) then InsertByKey(back, t, after) else back
  {
    var after := After(before, done + ([t] + rest), now, answers);
    assert done + ([t] + rest) == (done + [t]) + rest;
    var back := Requeued(done, later, before, after, answers);
    assert ([t] + rest) + back == [t] + (rest + back);
    TurnTimers(done, t, before, now, answers);
    RequeuedSnoc(done, t, later, before, after, answers);
  }

  /** One turn of the loop, run on the first of the expired timers ahead. */
  lemma Turn(done: seq<TimerId>, ahead: seq<TimerId>, later: seq<TimerId>, before: map<TimerId, Timer>,
             now: nat, answers: Answers)
    requires Parts(done, ahead, later, before, now) && ahead != [] && MovesOn(ahead, before, answers)
    ensures RunOnce(Midway(done, ahead, later, before, now, answers), now, answers)
         == Midway(done + [ahead[0]], ahead[1..], later, before, now, answers)
  {
    var t, rest := ahead[0], ahead[1..];
    assert ahead == [t] + rest;
    TurnFront(done, t, rest, later, before, now, answers);
    if Requeues(before[t], answers(t)) {
      TurnLands(done, t, rest, later, before, now, answers);
    }
  }

  lemma TurnCalls(done: seq<TimerId>, ahead: seq<TimerId>, later: seq<TimerId>, before: map<TimerId, Timer>,
                  now: nat, answers: Answers)
    requires Parts(done, ahead, later, before, now) && ahead != []
    ensures RanOnce(Midway(done, ahead, later, before, now, answers), now)
         == if CallsBack(before[ahead[0]]) then [ahead[0]] else []
  {
    assert ahead[0] in ahead;
  }

  lemma TurnLands(done: seq<TimerId>, t: TimerId, rest: seq<TimerId>, later: seq<TimerId>,
                  before: map<TimerId, Timer>, now: nat, answers: Answers)
    requires Parts(done, [t] + rest, later, before, now) && MovesOn([t] + rest, before, answers)
    requires Requeues(before[t], answers(t))
    ensures var after := After(before, done + ([t] + rest), now, answers);
            var timers := After(before, done + [t], now, answers);
            var back := Requeued(done, later, before, after, answers);
            InsertByKey(rest + back, t, timers) == rest + InsertByKey(back, t, after)
  {
    var after := After(before, done + ([t] + rest), now, answers);
    var timers := After(before, done + [t], now, answers);
    var back := Requeued(done, later, before, after, answers);
    assert ([t] + rest)[0] == t && t in [t] + rest;
    forall u | u in rest ensures u in timers && timers[u].expiry <= timers[t].expiry {
      TurnParts(done, [t] + rest, later, before, now);
      assert u in [t] + rest;
    }
    forall u | u in back ensures u in timers && u in after && timers[u] == after[u] {
      assert u in later || u in done;
    }
    TurnInserts(t, rest, back, timers, after);
  }

  // ---------------------------------------------------------------- the whole loop

  /** `m` calls of runTimers. */
  function Turns(b: Board, now: nat, answers: Answers, m: nat): (c: Board)
    requires forall t :: t in b.list ==> t in b.timers
    ensures forall t :: t in c.list ==> t in c.timers
    decreases m
  {
    if m == 0 then b else Turns(RunOnce(b, now, answers), now, answers, m - 1)
  }

  /** The callbacks of those calls, in order. */
  function RanInTurns(b: Board, now: nat, answers: Answers, m: nat): seq<TimerId>
    requires forall t :: t in b.list ==> t in b.timers
    decreases m
  {
    if m == 0 then []
    else RanOnce(b, now) + RanInTurns(RunOnce(b, now, answers), now, answers, m - 1)
  }

  /** runTimers returns a timeout greater than 0: nothing at the front is expired. */
  predicate Quiet(b: Board, now: nat)
    requires forall t :: t in b.list ==> t in b.timers
  {
    b.list == [] || b.timers[b.list[0]].expiry > now
  }

  lemma NextTurn(done: seq<TimerId>, ahead: seq<TimerId>, later: seq<TimerId>, before: map<TimerId, Timer>,
                 now: nat, answers: Answers, b: Board)
    requires Parts(done, ahead, later, before, now) && MovesOn(ahead, before, answers) && ahead != []
    requires b == Midway(done, ahead, later, before, now, answers)
    ensures Parts(done + [ahead[0]], ahead[1..], later, before, now) && MovesOn(ahead[1..], before, answers)
    ensures RunOnce(b, now, answers) == Midway(done + [ahead[0]], ahead[1..], later, before, now, answers)
    ensures (done + [ahead[0]]) + ahead[1..] == done + ahead
  {
    assert (done + [ahead[0]]) + ahead[1..] == done + ahead;
    Turn(done, ahead, later, before, now, answers);
    TurnParts(done, ahead, later, before, now);
  }

  /** One turn for each expired timer ahead leaves none ahead. */
  lemma {:induction false} AllTurns(done: seq<TimerId>, ahead: seq<TimerId>, later: seq<TimerId>,
                                    before: map<TimerId, Timer>, now: nat, answers: Answers, b: Board)
    requires Parts(done, ahead, later, before, now) && MovesOn(ahead, before, answers)
    requires b == Midway(done, ahead, later, before, now, answers)
    ensures Turns(b, now, answers, |ahead|) == Midway(done + ahead, [], later, before, now, answers)
    decreases ahead
  {
    if ahead == [] {
      assert done + [] == done;
    } else {
      NextTurn(done, ahead, later, before, now, answers, b);
      AllTurns(done + [ahead[0]], ahead[1..], later, before, now, answers, RunOnce(b, now, answers));
    }
  }

  /** These turns call the callbacks of the timers ahead, in order. */
  lemma {:induction false} AllCalls(done: seq<TimerId>, ahead: seq<TimerId>, later: seq<TimerId>,
                                    before: map<TimerId, Timer>, now: nat, answers: Answers, b: Board)
    requires Parts(done, ahead, later, before, now) && MovesOn(ahead, before, answers)
    requires b == Midway(done, ahead, later, before, now, answers)
    ensures RanInTurns(b, now, answers, |ahead|) == CalledBack(ahead, before)
    decreases ahead
  {
    if ahead != [] {
      NextTurn(done, ahead, later, before, now, answers, b);
      TurnCalls(done, ahead, later, before, now, answers);
      AllCalls(done + [ahead[0]], ahead[1..], later, before, now, answers, RunOnce(b, now, answers));
    }
  }

  /** Expired timers ahead are all that makes runTimers ask for another call. */
  lemma QuietMidway(done: seq<TimerId>, ahead: seq<TimerId>, later: seq<TimerId>,
                    before: map<TimerId, Timer>, now: nat, answers: Answers)
    requires Parts(done, ahead, later, before, now) && MovesOn(done, before, answers)
    ensures Quiet(Midway(done, ahead, later, before, now, answers), now) <==> ahead == []
  {
    var b := Midway(done, ahead, later, before, now, answers);
    if ahead != [] {
      assert ahead[0] in ahead;
    } else if b.list != [] {
      var t := b.list[0];
      assert t in later || t in done;
    }
  }

  lemma SlicesApart(list: seq<TimerId>, n: nat, t: TimerId)
    requires Distinct(list) && n <= |list|
    ensures !(t in list[..n] && t in list[n..])
    ensures t in list[..n] ==> exists p :: 0 <= p < n && list[p] == t
    ensures t in list[n..] ==> exists p :: n <= p < |list| && list[p] == t
  {
    if t in list[n..] {
      var p :| 0 <= p < |list| - n && list[n..][p] == t;
      assert list[n + p] == t;
    }
  }

  /** The list at the start: no timer had its turn, the expired ones are ahead. */
  lemma DrainParts(b: Board, now: nat)
    requires Good(b)
    ensures Parts([], b.list[..DueCount(b, now)], b.list[DueCount(b, now)..], b.timers, now)
    ensures Parts(b.list[..DueCount(b, now)], [], b.list[DueCount(b, now)..], b.timers, now)
  {
    var n := DueCount(b, now);
    forall t | t in b.list[..n] ensures t in b.timers && t !in b.list[n..] && b.timers[t].expiry <= now {
      SlicesApart(b.list, n, t);
      var p :| 0 <= p < n && b.list[p] == t;
      DueAreTheExpired(b, now, p);
    }
    forall t | t in b.list[n..] ensures t in b.timers && b.timers[t].expiry > now {
      SlicesApart(b.list, n, t);
      var p :| n <= p < |b.list| && b.list[p] == t;
      DueAreTheExpired(b, now, p);
    }
  }

  lemma MidwayStarts(b: Board, now: nat, answers: Answers, n: nat)
    requires (forall t :: t in b.list ==> t in b.timers) && n <= |b.list|
    ensures (forall t :: t in b.list[..n] || t in b.list[n..] ==> t in b.timers)
         && Midway([], b.list[..n], b.list[n..], b.timers, now, answers) == b
  {
    assert b.list == b.list[..n] + b.list[n..];
    assert After(b.timers, [], now, answers) == b.timers;
  }

  lemma NoneAhead(due: seq<TimerId>, later: seq<TimerId>, before: map<TimerId, Timer>, now: nat, answers: Answers)
    requires forall t :: t in due || t in later ==> t in before
    ensures var after := After(before, due, now, answers);
            Midway(due, [], later, before, now, answers) == Board(Requeued(due, later, before, after, answers), after)
  {
    assert due + [] == due;
    var r := Requeued(due, later, before, After(before, due, now, answers), answers);
    assert [] + r == r;
  }

  lemma MidwayEnds(b: Board, now: nat, answers: Answers)
    requires forall t :: t in b.list ==> t in b.timers
    ensures (forall t :: t in b.list[..DueCount(b, now)] || t in b.list[DueCount(b, now)..] ==> t in b.timers)
         && Midway(b.list[..DueCount(b, now)], [], b.list[DueCount(b, now)..], b.timers, now, answers)
            == Drained(b, now, answers)
  {
    var n := DueCount(b, now);
    forall t | t in b.list[..n] || t in b.list[n..] ensures t in b.timers {
      assert t in b.list;
    }
    NoneAhead(b.list[..n], b.list[n..], b.timers, now, answers);
  }

  /** What the loop needs in order to end: no expired timer is requeued with interval 0. */
  ghost predicate Ends(b: Board, now: nat, answers: Answers)
    requires Good(b)
  {
    var due := b.list[..DueCount(b, now)];
    (forall t :: t in due ==> t in b.timers) && MovesOn(due, b.timers, answers)
  }

  /** After as many turns as there were expired timers the loop ends, having left `Drained` and called the
    * callbacks of the expired timers, in list order. */
  lemma DrainEnds(b: Board, now: nat, answers: Answers)
    requires Good(b) && Ends(b, now, answers)
    ensures var n := DueCount(b, now);
            && Turns(b, now, answers, n) == Drained(b, now, answers)
            && RanInTurns(b, now, answers, n) == CalledBack(b.list[..n], b.timers)
            && Quiet(Turns(b, now, answers, n), now)
  {
    var n := DueCount(b, now);
    var due, later := b.list[..n], b.list[n..];
    DrainParts(b, now);
    MidwayStarts(b, now, answers, n);
    MidwayEnds(b, now, answers);
    AllTurns([], due, later, b.timers, now, answers, b);
    AllCalls([], due, later, b.timers, now, answers, b);
    assert [] + due == due;
    QuietMidway(due, [], later, b.timers, now, answers);
  }

  lemma Reassociate<T>(a: seq<T>, b: seq<T>, c: seq<T>)
    ensures (a + b) + c == a + (b + c)
  {
  }

  /** The board on the way through a drain. */
  ghost predicate InTheMiddle(done: seq<TimerId>, ahead: seq<TimerId>, later: seq<TimerId>, before: map<TimerId, Timer>,
                              now: nat, answers: Answers, b: Board)
  {
    && Parts(done, ahead, later, before, now)
    && MovesOn(ahead, before, answers) && MovesOn(done, before, answers)
    && b == Midway(done, ahead, later, before, now, answers)
  }

  /** What a turn does to it: the first timer ahead is done, or nothing happens. */
  lemma AfterTurn(done: seq<TimerId>, ahead: seq<TimerId>, later: seq<TimerId>, before: map<TimerId, Timer>,
                  now: nat, answers: Answers, b: Board, ran: seq<TimerId>)
    returns (done': seq<TimerId>, ahead': seq<TimerId>)
    requires InTheMiddle(done, ahead, later, before, now, answers, b)
    ensures InTheMiddle(done', ahead', later, before, now, answers, RunOnce(b, now, answers))
    ensures done' + ahead' == done + ahead && (|ahead'| < |ahead| || ahead' == ahead == [])
    ensures Quiet(RunOnce(b, now, answers), now) <==> ahead' == []
    ensures (ran + RanOnce(b, now)) + CalledBack(ahead', before) == ran + CalledBack(ahead, before)
  {
    if ahead == [] {
      done', ahead' := done, ahead;
      QuietMidway(done, ahead, later, before, now, answers);
      NothingToRun(b, now, answers);
    } else {
      done', ahead' := done + [ahead[0]], ahead[1..];
      NextTurn(done, ahead, later, before, now, answers, b);
      TurnCalls(done, ahead, later, before, now, answers);
      QuietMidway(done', ahead', later, before, now, answers);
      Reassociate(ran, RanOnce(b, now), CalledBack(ahead', before));
    }
  }

  /** An expired timer that is not Queued is unlisted and nothing else. */
  lemma NothingToRun(b: Board, now: nat, answers: Answers)
    requires forall t :: t in b.list ==> t in b.timers
    requires Quiet(b, now) || b.timers[b.list[0]].state != Queued
    ensures RunOnce(b, now, answers) == if Quiet(b, now) then b else Board(b.list[1..], b.timers)
    ensures RanOnce(b, now) == []
  {
  }

  lemma Outset(b: Board, now: nat, answers: Answers)
    requires Good(b) && Ends(b, now, answers)
    ensures InTheMiddle([], b.list[..DueCount(b, now)], b.list[DueCount(b, now)..], b.timers, now, answers, b)
  {
    DrainParts(b, now);
    MidwayStarts(b, now, answers, DueCount(b, now));
  }

  lemma Outcome(b: Board, now: nat, answers: Answers, c: Board)
    requires Good(b)
    requires var n := DueCount(b, now);
             InTheMiddle([] + b.list[..n], [], b.list[n..], b.timers, now, answers, c)
    ensures c == Drained(b, now, answers)
  {
    assert [] + b.list[..DueCount(b, now)] == b.list[..DueCount(b, now)];
    MidwayEnds(b, now, answers);
  }

  /** The calls `r` are made in the order in which the timers stand in `due`. */
  ghost predicate InOrderOf(r: seq<TimerId>, due: seq<TimerId>) {
    && (forall t :: t in r ==> t in due)
    && (forall i, j :: 0 <= i < j < |r| ==> IndexOf(due, r[i]) < IndexOf(due, r[j]))
  }

  lemma BehindAnother(r: seq<TimerId>, t: TimerId, rest: seq<TimerId>)
    requires InOrderOf(r, rest) && t !in rest
    ensures InOrderOf(r, [t] + rest) && InOrderOf([t] + r, [t] + rest)
  {
    forall u | u in rest ensures IndexOf([t] + rest, u) == 1 + IndexOf(rest, u) {
      assert ([t] + rest)[1..] == rest;
    }
    assert forall i :: 0 <= i < |r| ==> r[i] in rest;
    assert IndexOf([t] + rest, t) == 0;
  }

  lemma {:induction false} CalledInOrder(due: seq<TimerId>, timers: map<TimerId, Timer>)
    requires Distinct(due) && forall t :: t in due ==> t in timers
    ensures InOrderOf(CalledBack(due, timers), due)
  {
    if due != [] {
      CalledInOrder(due[1..], timers);
      assert due == [due[0]] + due[1..] && due[0] !in due[1..];
      BehindAnother(CalledBack(due[1..], timers), due[0], due[1..]);
      assert [] + CalledBack(due[1..], timers) == CalledBack(due[1..], timers);
    }
  }

  /** Every expired timer with a handler is called once: the calls are a subsequence of the list, so in its order. */
  lemma CalledOnce(due: seq<TimerId>, timers: map<TimerId, Timer>)
    requires Distinct(due) && forall t :: t in due ==> t in timers
    ensures Distinct(CalledBack(due, timers))
    ensures forall i, j :: 0 <= i < j < |CalledBack(due, timers)| ==>
              IndexOf(due, CalledBack(due, timers)[i]) < IndexOf(due, CalledBack(due, timers)[j])
  {
    CalledInOrder(due, timers);
  }

  lemma InsertKeepsAscending(keys: seq<nat>, key: nat)
    requires Ascending(keys)
    ensures Ascending(keys[..InsertPos(keys, key)] + [key] + keys[InsertPos(keys, key)..])
  {
  }

  lemma InsertKeepsDistinct(list: seq<TimerId>, p: nat, t: TimerId)
    requires p <= |list| && t !in list && Distinct(list)
    ensures Distinct(InsertAt(list, p, t))
  {
  }

  lemma InsertKeepsGood(list: seq<TimerId>, t: TimerId, timers: map<TimerId, Timer>)
    requires t in timers && t !in list && Good(Board(list, timers))
    ensures Good(Board(InsertByKey(list, t, timers), timers))
  {
    var keys, key := KeysOf(list, timers), timers[t].expiry;
    var p := InsertPos(keys, key);
    InsertKeepsDistinct(list, p, t);
    InsertKeepsAscending(keys, key);
    assert KeysOf(InsertAt(list, p, t), timers) == keys[..p] + [key] + keys[p..];
  }

  /** A turn keeps the list duplicate-free and sorted. */
  lemma TurnKeepsGood(b: Board, now: nat, answers: Answers)
    requires Good(b)
    ensures Good(RunOnce(b, now, answers))
  {
    if !Quiet(b, now) {
      var t, rest := b.list[0], b.list[1..];
      var timers := b.timers[t := Fired(b.timers[t], answers(t), now)];
      assert t !in rest;
      assert Good(Board(rest, timers));
      if Requeues(b.timers[t], answers(t)) {
        InsertKeepsGood(rest, t, timers);
      }
    }
  }

  /** What a turn makes of the front timer, if it is due and Queued: it is listed again, Queued and due `interval`
    * after this clock reading, exactly if its handler answers true and it is repeating at a finite interval; in any
    * other case it is Stopped and off the list. No other timer changes, and none leaves or enters the list. */
  lemma TurnResult(b: Board, now: nat, answers: Answers)
    requires Good(b) && b.list != [] && b.timers[b.list[0]].expiry <= now && b.timers[b.list[0]].state == Queued
    ensures var t, b' := b.list[0], RunOnce(b, now, answers);
            var r := b.timers[t];
            var kept := r.hasHandler && answers(t) && r.repeating && r.interval != 0xFFFF_FFFF;
            && (t in b'.list <==> kept) && b'.timers.Keys == b.timers.Keys
            && b'.timers[t] == (if kept then r.(state := Queued, stopRequested := false, expiry := now + r.interval)
                                else r.(state := Stopped, stopRequested := false))
            && (forall u :: u in b.timers && u != t ==> b'.timers[u] == b.timers[u] && (u in b'.list <==> u in b.list))
    ensures RanOnce(b, now) == if b.timers[b.list[0]].hasHandler then [b.list[0]] else []
  {
    assert b.list == [b.list[0]] + b.list[1..] && b.list[0] !in b.list[1..];
  }

  /** An expired timer that will be requeued with interval 0. */
  predicate Stuck(b: Board, t: TimerId, now: nat, answers: Answers) {
    && t in b.list && t in b.timers && b.timers[t].expiry <= now
    && Requeues(b.timers[t], answers(t)) && b.timers[t].interval == 0
  }

  lemma StuckIsNotQuiet(b: Board, t: TimerId, now: nat, answers: Answers)
    requires Good(b) && Stuck(b, t, now, answers)
    ensures !Quiet(b, now)
  {
    var i :| 0 <= i < |b.list| && b.list[i] == t;
    assert KeysOf(b.list, b.timers)[0] <= KeysOf(b.list, b.timers)[i];
  }

  lemma StuckStays(b: Board, t: TimerId, now: nat, answers: Answers)
    requires Good(b) && Stuck(b, t, now, answers)
    ensures Stuck(RunOnce(b, now, answers), t, now, answers)
  {
    StuckIsNotQuiet(b, t, now, answers);
    assert b.list == [b.list[0]] + b.list[1..];
  }

  lemma {:induction false} StuckForever(b: Board, t: TimerId, now: nat, answers: Answers, m: nat)
    requires Good(b) && Stuck(b, t, now, answers)
    ensures !Quiet(Turns(b, now, answers, m), now)
    decreases m
  {
    if m == 0 {
      StuckIsNotQuiet(b, t, now, answers);
    } else {
      TurnKeepsGood(b, now, answers);
      StuckStays(b, t, now, answers);
      StuckForever(RunOnce(b, now, answers), t, now, answers, m - 1);
    }
  }

  lemma NotEnding(b: Board, now: nat, answers: Answers) returns (t: TimerId)
    requires Good(b) && !Ends(b, now, answers)
    ensures Stuck(b, t, now, answers)
  {
    var n := DueCount(b, now);
    assert b.list == b.list[..n] + b.list[n..];
    t :| t in b.list[..n] && Requeues(b.timers[t], answers(t)) && b.timers[t].interval == 0;
    var i :| 0 <= i < n && b.list[i] == t;
    DueAreTheExpired(b, now, i);
  }

  /** The loop ends if and only if no expired timer is requeued with interval 0. */
  lemma DrainEndsIff(b: Board, now: nat, answers: Answers)
    requires Good(b)
    ensures (exists m :: Quiet(Turns(b, now, answers, m), now)) <==> Ends(b, now, answers)
  {
    if Ends(b, now, answers) {
      DrainEnds(b, now, answers);
    } else {
      var t := NotEnding(b, now, answers);
      forall m: nat ensures !Quiet(Turns(b, now, answers, m), now) {
        StuckForever(b, t, now, answers, m);
      }
    }
  }

  const ALWAYS_KEEP: Answers := _ => true

  /** A repeating timer started with interval 0 and a handler that keeps it holds the loop for ever. */
  lemma ZeroIntervalNeverEnds(now: nat)
    ensures var r := Timer(Queued, false, now, 0, true, true, Free, 0);
            var b := Board([7], map[7 := r]);
            Good(b) && forall m :: !Quiet(Turns(b, now, ALWAYS_KEEP, m), now)
  {
    var r := Timer(Queued, false, now, 0, true, true, Free, 0);
    var b := Board([7], map[7 := r]);
    forall m: nat ensures !Quiet(Turns(b, now, ALWAYS_KEEP, m), now) {
      StuckForever(b, 7, now, ALWAYS_KEEP, m);
    }
  }
}
