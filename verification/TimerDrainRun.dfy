/** The whole timer loop of loopOnce, as atomic steps: if nobody disturbs the loop thread and the clock stands still,
  * its steps from Take lead to epoll_wait with exactly what `Drained` says. */
module TimerDrainRun {
  import opened TimerOrder
  import opened TimerProtocol
  import opened TimerDrain
  import opened TimerTurn
  import TimerTheorems

  /** The board that a state of the step system shows. */
  function BoardOf(s: Sys): Board {
    Board(s.list, s.timers)
  }

  /** Every state that satisfies the invariant shows a good board. */
  lemma BoardIsGood(s: Sys)
    requires TimersInv(s)
    ensures Good(BoardOf(s))
  {
    SortedIsDistinct(s);
    var keys := KeysOf(s.list, s.timers);
    forall i, j | 0 <= i < j < |keys| ensures keys[i] <= keys[j] {
      assert Before(s.timers[s.list[i]], s.timers[s.list[j]]);
    }
  }

  /** No expired timer of the state is requeued with interval 0. */
  ghost predicate EndsAt(s: Sys, e: Env)
    requires TimersInv(s)
  {
    BoardIsGood(s);
    Ends(BoardOf(s), e.now, e.answers)
  }

  // ---------------------------------------------------------------- insertion history does not matter

  lemma AlikeKeys(a: Board, b: Board, list: seq<TimerId>)
    requires Alike(a, b) && forall t :: t in list ==> t in b.timers
    ensures KeysOf(list, a.timers) == KeysOf(list, b.timers)
  {
  }

  lemma AlikeFired(a: Board, b: Board, t: TimerId, yes: bool, now: nat)
    requires Alike(a, b) && t in b.timers
    ensures Alike(Board(a.list, a.timers[t := Fired(a.timers[t], yes, now)]),
                  Board(b.list, b.timers[t := Fired(b.timers[t], yes, now)]))
  {
    assert a.timers[t] == b.timers[t].(stamp := a.timers[t].stamp);
  }

  lemma AlikeInsert(a: map<TimerId, Timer>, b: map<TimerId, Timer>, list: seq<TimerId>, t: TimerId)
    requires Alike(Board(list, a), Board(list, b)) && t in b && forall u :: u in list ==> u in b
    ensures InsertByKey(list, t, a) == InsertByKey(list, t, b)
  {
    AlikeKeys(Board(list, a), Board(list, b), list);
    assert a[t] == b[t].(stamp := a[t].stamp);
  }

  /** A turn does the same to boards that are alike. */
  lemma AlikeTurns(a: Board, b: Board, now: nat, answers: Answers)
    requires Alike(a, b) && forall t :: t in b.list ==> t in b.timers
    ensures Alike(RunOnce(a, now, answers), RunOnce(b, now, answers))
  {
    if b.list != [] {
      var t, rest := b.list[0], b.list[1..];
      assert a.timers[t] == b.timers[t].(stamp := a.timers[t].stamp);
      if b.timers[t].expiry <= now {
        AlikeFired(a, b, t, answers(t), now);
        var x := a.timers[t := Fired(a.timers[t], answers(t), now)];
        var y := b.timers[t := Fired(b.timers[t], answers(t), now)];
        assert Alike(Board(rest, x), Board(rest, y));
        AlikeInsert(x, y, rest, t);
      }
    }
  }

  lemma AlikeChain(a: Board, b: Board, c: Board)
    requires Alike(a, b) && Alike(b, c)
    ensures Alike(a, c)
  {
    forall u | u in c.timers ensures a.timers[u] == c.timers[u].(stamp := a.timers[u].stamp) {
      assert b.timers[u] == c.timers[u].(stamp := b.timers[u].stamp);
    }
  }

  // ---------------------------------------------------------------- what the steps keep

  lemma {:induction false} PathKeeps(p: seq<Sys>, e: Env, s: Sys, s': Sys, k: nat)
    requires Path(p, e, s, s') && TimersInv(s) && k < |p|
    ensures TimersInv(p[k]) && s.now <= p[k].now
  {
    if k > 0 {
      PathKeeps(p, e, s, s', k - 1);
      assert Linked(p, e, k - 1);
      LoopStepKeeps(p[k - 1], e.At(p[k - 1].loop));
    }
  }

  lemma LoopStepKeeps(s: Sys, c: Choice)
    requires TimersInv(s) && LoopEnabled(s, c)
    ensures TimersInv(LoopStep(s, c)) && s.now <= LoopStep(s, c).now
  {
    StepKeepsTimers(s, Loop(c));
    TimerTheorems.NowGrows(s, Loop(c));
  }

  lemma ReachedKeeps(s: Sys, e: Env, s': Sys)
    requires Reaches(s, e, s') && TimersInv(s)
    ensures TimersInv(s') && s.now <= s'.now
  {
    var p :| Path(p, e, s, s');
    PathKeeps(p, e, s, s', |p| - 1);
  }

  // ---------------------------------------------------------------- from turn to turn

  /** After a turn the loop looks at the front again, and takes another turn or goes to sleep. */
  lemma LooksAgain(s: Sys, e: Env, b: Board) returns (s': Sys)
    requires TimersInv(s) && s.loop == Timeout && e.now <= s.now && Shows(s, b)
    ensures Reaches(s, e, s') && Shows(s', b) && s'.now == s.now
    ensures (forall t :: t in b.list ==> t in b.timers)
         && if Quiet(b, e.now) then s'.loop.Epoll? && 0 < s'.loop.wait <= WAIT_TIME_MS && s'.loop.at == e.now
            else s'.loop == Take
  {
    var wait := NextTimeout(s, e.now);
    s' := s.(loop := if wait == 0 then Take else Epoll(wait, e.now));
    OneStep(s, e, s');
    if b.list != [] {
      assert s.timers[b.list[0]] == b.timers[b.list[0]].(stamp := s.timers[b.list[0]].stamp);
    }
  }

  /** A turn together with that look. */
  lemma TurnAndLook(s: Sys, e: Env, b: Board) returns (s': Sys)
    requires TimersInv(s) && s.loop == Take && e.now <= s.now && Shows(s, b)
    ensures forall t :: t in b.list ==> t in b.timers
    ensures var b' := RunOnce(b, e.now, e.answers);
            && Reaches(s, e, s') && Shows(s', b') && TimersInv(s') && e.now <= s'.now
            && (if Quiet(b', e.now) then s'.loop.Epoll? && 0 < s'.loop.wait <= WAIT_TIME_MS && s'.loop.at == e.now
                else s'.loop == Take)
  {
    var b' := RunOnce(b, e.now, e.answers);
    var m := UndisturbedTurn(s, e);
    AlikeTurns(BoardOf(s), b, e.now, e.answers);
    AlikeChain(BoardOf(m), RunOnce(BoardOf(s), e.now, e.answers), b');
    ReachedKeeps(s, e, m);
    s' := LooksAgain(m, e, b');
    Chained(s, e, m, s');
    ReachedKeeps(m, e, s');
  }

  /** From any point of a drain to its end. */
  lemma {:induction false} DrainOn(done: seq<TimerId>, ahead: seq<TimerId>, later: seq<TimerId>,
                                   before: map<TimerId, Timer>, e: Env, s: Sys, b: Board) returns (s': Sys)
    requires TimersInv(s) && s.loop == Take && e.now <= s.now && Shows(s, b)
    requires InTheMiddle(done, ahead, later, before, e.now, e.answers, b)
    ensures Reaches(s, e, s') && s'.loop.Epoll? && 0 < s'.loop.wait <= WAIT_TIME_MS && s'.loop.at == e.now
    ensures exists b' :: InTheMiddle(done + ahead, [], later, before, e.now, e.answers, b') && Shows(s', b')
    decreases |ahead|
  {
    var b1 := RunOnce(b, e.now, e.answers);
    var m := TurnAndLook(s, e, b);
    var d, a := AfterTurn(done, ahead, later, before, e.now, e.answers, b, []);
    if a == [] {
      s' := m;
      assert d + [] == d;
    } else {
      s' := DrainOn(d, a, later, before, e, m, b1);
      Chained(s, e, m, s');
    }
  }

  /** Undisturbed at one clock reading, with no expired timer requeued with interval 0, the loop's steps lead from
    * Take to epoll_wait, and the list and fields are then those of `Drained`. */
  lemma UndisturbedDrain(s: Sys, e: Env) returns (s': Sys)
    requires TimersInv(s) && s.loop == Take && e.now <= s.now && EndsAt(s, e)
    ensures Reaches(s, e, s') && s'.loop.Epoll? && 0 < s'.loop.wait <= 10_000 && s'.loop.at == e.now
    ensures (forall t :: t in s.list ==> t in s.timers) && Shows(s', Drained(BoardOf(s), e.now, e.answers))
  {
    BoardIsGood(s);
    var b := BoardOf(s);
    Outset(b, e.now, e.answers);
    var n := DueCount(b, e.now);
    s' := DrainOn([], b.list[..n], b.list[n..], b.timers, e, s, b);
    var b' :| InTheMiddle([] + b.list[..n], [], b.list[n..], b.timers, e.now, e.answers, b') && Shows(s', b');
    Outcome(b, e.now, e.answers, b');
  }
}
