/** Whole calls of post and terminate, and a whole round of loopOnce, that nobody disturbs. */
module LoopCalls {
  import opened TimerOrder
  import opened TimerProtocol
  import opened TimerTheorems
  import opened TimerDrain
  import opened TimerTurn
  import opened TimerLostStop
  import opened LoopHistory

  // ---------------------------------------------------------------- callers

  /** post with room in the queue: the function is accepted last, and the loop woken. */
  lemma PostAccepts(s: Sys, who: Thread, f: TaskId)
    requires Closed(s) && s.poster.NoPoster? && |s.functions| < 128
    ensures Leads(s, [Post(who, f), PostWake],
                  s.(functions := s.functions + [f], accepted := s.accepted + [f], pipe := Send(s.pipe, Wakeup)))
  {
    var m := s.(functions := s.functions + [f], accepted := s.accepted + [f], poster := Waking(who));
    LeadsTwo(s, Post(who, f), m, PostWake, m.(poster := NoPoster, pipe := Send(s.pipe, Wakeup)));
  }

  /** In every run a function is accepted exactly if its post finds fewer than 128 queued; a refused post does
    * nothing at all. */
  lemma PostAcceptedIff(run: seq<Sys>, acts: seq<Act>, i: nat)
    requires IsRun(run, acts) && i < |acts|
    ensures acts[i].Post? ==>
              if |run[i].functions| < 128 then
                run[i + 1].accepted == run[i].accepted + [acts[i].f]
                && run[i + 1].functions == run[i].functions + [acts[i].f] && run[i + 1].poster.Waking?
              else run[i + 1] == run[i]
    ensures !acts[i].Post? ==> run[i + 1].accepted == run[i].accepted
    ensures acts[i].PostWake? ==> run[i + 1].poster.NoPoster? && run[i + 1].pipe != []
  {
    if acts[i].Ctl? {
      ControlAcceptsNone(run[i], acts[i].t, acts[i].c);
    } else if acts[i].Loop? {
      LoopAcceptsNone(run[i], acts[i].c);
    }
  }

  lemma ControlAcceptsNone(s: Sys, t: TimerId, c: Choice)
    requires Closed(s) && CtlEnabled(s, t, c)
    ensures CtlStep(s, t, c).accepted == s.accepted
  {
  }

  lemma LoopAcceptsNone(s: Sys, c: Choice)
    requires Closed(s) && LoopEnabled(s, c)
    ensures LoopStep(s, c).accepted == s.accepted
  {
  }

  /** terminate: the flag, and then the command, unless the pipe is full. */
  lemma TerminateStores(s: Sys, who: Thread)
    requires Closed(s) && who !in s.terminators
    ensures Leads(s, [TerminateStore(who), TerminateSend(who)],
                  s.(terminated := true, pipe := Send(s.pipe, Terminate)))
  {
    var m := s.(terminated := true, terminators := s.terminators + {who});
    assert m.terminators - {who} == s.terminators;
    LeadsTwo(s, TerminateStore(who), m, TerminateSend(who), s.(terminated := true, pipe := Send(s.pipe, Terminate)));
  }

  // ---------------------------------------------------------------- the loop

  lemma StaysPut(s: Sys, e: Env)
    requires Closed(s)
    ensures Reaches(s, e, s)
  {
    assert Path([s], e, s, s);
  }

  lemma RunsOne(s: Sys, e: Env, b: bool)
    requires Closed(s) && s.loop == GetFunction(b) && s.poster.NoPoster? && s.functions != []
    ensures Reaches(s, e, s.(loop := GetFunction(true), functions := s.functions[1..], ran := s.ran + [s.functions[0]]))
  {
    var m := s.(loop := RunFunction(s.functions[0]), functions := s.functions[1..]);
    OneStep(s, e, m);
    OneStep(m, e, m.(loop := GetFunction(true), ran := s.ran + [s.functions[0]]));
    Chained(s, e, m, m.(loop := GetFunction(true), ran := s.ran + [s.functions[0]]));
  }

  lemma RunsNone(s: Sys, e: Env, b: bool)
    requires Closed(s) && s.loop == GetFunction(b) && s.poster.NoPoster? && s.functions == []
    ensures Reaches(s, e, s.(loop := Take))
  {
    if b {
      var m := s.(loop := GetFunction(false));
      OneStep(s, e, m);
      OneStep(m, e, s.(loop := Take));
      Chained(s, e, m, s.(loop := Take));
    } else {
      OneStep(s, e, s.(loop := Take));
    }
  }

  /** Undisturbed, runFunctions runs every queued function, in order, and leaves the queue empty. */
  lemma {:induction false} RunsAllFunctions(s: Sys, e: Env, b: bool)
    requires Closed(s) && s.loop == GetFunction(b) && s.poster.NoPoster?
    ensures Reaches(s, e, s.(loop := Take, functions := [], ran := s.ran + s.functions))
    decreases |s.functions|
  {
    if s.functions == [] {
      RunsNone(s, e, b);
      assert s.ran + s.functions == s.ran;
    } else {
      var m := s.(loop := GetFunction(true), functions := s.functions[1..], ran := s.ran + [s.functions[0]]);
      RunsOne(s, e, b);
      RunsAllFunctions(m, e, true);
      assert s.functions == [s.functions[0]] + s.functions[1..];
      assert m.ran + m.functions == s.ran + s.functions;
      Chained(s, e, m, m.(loop := Take, functions := [], ran := m.ran + m.functions));
    }
  }

  /** drainCommandPipe empties the pipe and tells whether a Terminate was in it. */
  lemma {:induction false} DrainsThePipe(s: Sys, e: Env, b: bool)
    requires Closed(s) && s.loop == Drain(b)
    ensures Reaches(s, e, s.(loop := CheckTerminated(b || Terminate in s.pipe), pipe := []))
    decreases |s.pipe|
  {
    if s.pipe == [] {
      OneStep(s, e, s.(loop := CheckTerminated(b)));
    } else {
      var m := s.(loop := Drain(b || s.pipe[0] == Terminate), pipe := s.pipe[1..]);
      OneStep(s, e, m);
      DrainsThePipe(m, e, b || s.pipe[0] == Terminate);
      assert s.pipe == [s.pipe[0]] + s.pipe[1..];
      Chained(s, e, m, m.(loop := CheckTerminated(b || Terminate in s.pipe), pipe := []));
    }
  }

  /** A byte in the pipe ends the sleep, and so may the timeout, byte or not. */
  lemma ByteEndsSleep(s: Sys, other: bool)
    requires Closed(s) && s.loop.Epoll?
    ensures Enabled(s, Loop(Choice(0, true, other))) <==> s.pipe != []
    ensures s.pipe != [] ==> Do(s, Loop(Choice(0, true, other))) == s.(loop := Drain(false))
    ensures Enabled(s, Loop(GO)) && Do(s, Loop(GO)) == s.(loop := GetFunction(false))
  {
  }

  /** Woken and undisturbed, the loop empties the pipe and ends, if somebody has called terminate(), or runs
    * all queued functions in order and gets to its timers. */
  lemma WokenRound(s: Sys, e: Env)
    requires Closed(s) && CommandsFollowFlag(s) && s.loop == Drain(false) && s.poster.NoPoster?
    ensures Reaches(s, e, if s.terminated then s.(loop := Exited, pipe := [])
                          else s.(loop := Take, pipe := [], functions := [], ran := s.ran + s.functions))
  {
    var m := s.(loop := CheckTerminated(Terminate in s.pipe), pipe := []);
    DrainsThePipe(s, e, false);
    if s.terminated {
      OneStep(m, e, m.(loop := Exited));
      Chained(s, e, m, m.(loop := Exited));
    } else {
      var g := m.(loop := GetFunction(false));
      OneStep(m, e, g);
      Chained(s, e, m, g);
      RunsAllFunctions(g, e, false);
      Chained(s, e, g, g.(loop := Take, functions := [], ran := s.ran + s.functions));
    }
  }
}
