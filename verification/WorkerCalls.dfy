/** Whole calls of start and join that nobody disturbs, step by step from any state to what they leave. */
module WorkerCalls {
  import opened WorkerState
  import opened WorkerProtocol

  /** `acts` leads from `s` to `s'`. */
  ghost predicate Leads(s: Sys, acts: seq<Act>, s': Sys)
    decreases |acts|
  {
    if acts == [] then s == s'
    else Enabled(s, acts[0]) && Leads(Do(s, acts[0]), acts[1..], s')
  }

  lemma {:induction false} LeadsJoin(s: Sys, acts: seq<Act>, m: Sys, more: seq<Act>, s': Sys)
    requires Leads(s, acts, m) && Leads(m, more, s')
    ensures Leads(s, acts + more, s')
    decreases |acts|
  {
    if acts == [] {
      assert [] + more == more;
    } else {
      assert (acts + more)[1..] == acts[1..] + more;
      LeadsJoin(Do(s, acts[0]), acts[1..], m, more, s');
    }
  }

  lemma LeadsOne(s: Sys, a: Act, s': Sys)
    requires Enabled(s, a) && Do(s, a) == s'
    ensures Leads(s, [a], s')
  {
    assert [a][1..] == [] && Leads(s', [], s');
  }

  lemma Two(s: Sys, a: Act, m: Sys, b: Act, s': Sys)
    requires Leads(s, [a], m) && Leads(m, [b], s')
    ensures Leads(s, [a, b], s')
  {
    LeadsJoin(s, [a], m, [b], s');
    assert [a] + [b] == [a, b];
  }

  /** The holder's next step, with the answer of the system or of onPrepare. */
  function L(yes: bool): Act {
    LifeStep(yes, NO_THREAD)
  }

  /** `who` is in start(w), at `pc`, with an object it has claimed. */
  function Starting(s: Sys, who: ThreadId, w: Worker, pc: LifePc, trace: seq<Event>): Sys {
    s.(life := Held(who, Start(w), pc), d := RESET.(state := ThreadState.Starting, worker := w), open := true,
       trace := trace)
  }

  /** Idle, with `who` about to claim it for start(w). */
  predicate AtBegin(s: Sys, who: ThreadId, w: Worker) {
    s.life == Held(who, Start(w), Begin) && s.d == RESET && w != NO_WORKER && !s.open && s.trace == []
  }

  lemma Claims(s: Sys, who: ThreadId, w: Worker)
    requires AtBegin(s, who, w)
    ensures Leads(s, [L(true)], Starting(s, who, w, InitAttr, []))
  {
    LeadsOne(s, L(true), Starting(s, who, w, InitAttr, []));
  }

  lemma Prepares(s: Sys, who: ThreadId, w: Worker)
    requires AtBegin(s, who, w)
    ensures Leads(s, [L(true), L(true)], Starting(s, who, w, Prepare, []))
  {
    Claims(s, who, w);
    LeadsOne(Starting(s, who, w, InitAttr, []), L(true), Starting(s, who, w, Prepare, []));
    Two(s, L(true), Starting(s, who, w, InitAttr, []), L(true), Starting(s, who, w, Prepare, []));
  }

  lemma Creates(s: Sys, who: ThreadId, w: Worker)
    requires AtBegin(s, who, w)
    ensures Leads(s, [L(true), L(true), L(true)], Starting(s, who, w, Create, [Prepared(true)]))
  {
    Prepares(s, who, w);
    var m, s' := Starting(s, who, w, Prepare, []), Starting(s, who, w, Create, [Prepared(true)]);
    LeadsOne(m, L(true), s');
    LeadsJoin(s, [L(true), L(true)], m, [L(true)], s');
    assert [L(true), L(true)] + [L(true)] == [L(true), L(true), L(true)];
  }

  /** What is left when start has failed: idle, with one more session in the history. */
  function Failed(s: Sys, w: seq<Event>): Sys {
    s.(life := Free, d := RESET, open := false, trace := [], sessions := s.sessions + [w])
  }

  /** pthread_attr_init fails: nothing of the worker is called. */
  lemma StartWithoutAttr(s: Sys, who: ThreadId, w: Worker)
    requires AtBegin(s, who, w)
    ensures Leads(s, [L(true)] + [L(false), L(true)], Failed(s, []))
  {
    Claims(s, who, w);
    var s1, s2 := Starting(s, who, w, InitAttr, []), Starting(s, who, w, Fail(false), []);
    LeadsOne(s1, L(false), s2);
    LeadsOne(s2, L(true), Failed(s, []));
    Two(s1, L(false), s2, L(true), Failed(s, []));
    LeadsJoin(s, [L(true)], s1, [L(false), L(true)], Failed(s, []));
  }

  /** onPrepare fails: no thread, and no onCleanup. */
  lemma StartUnprepared(s: Sys, who: ThreadId, w: Worker)
    requires AtBegin(s, who, w)
    ensures Leads(s, [L(true), L(true)] + [L(false), L(true)], Failed(s, [Prepared(false)]))
  {
    Prepares(s, who, w);
    var s1, s2 := Starting(s, who, w, Prepare, []), Starting(s, who, w, Fail(false), [Prepared(false)]);
    LeadsOne(s1, L(false), s2);
    LeadsOne(s2, L(true), Failed(s, [Prepared(false)]));
    Two(s1, L(false), s2, L(true), Failed(s, [Prepared(false)]));
    LeadsJoin(s, [L(true), L(true)], s1, [L(false), L(true)], Failed(s, [Prepared(false)]));
  }

  /** start after its failed pthread_create, which has reset the data. */
  function Cleaning(s: Sys, who: ThreadId, w: Worker, inside: bool, trace: seq<Event>): Sys {
    s.(life := Held(who, Start(w), FailCleanup(inside)), open := true, trace := trace)
  }

  lemma CleansUp(s: Sys, who: ThreadId, w: Worker)
    requires AtBegin(s, who, w)
    ensures Leads(Cleaning(s, who, w, false, [Prepared(true)]), [L(true), L(true)],
                  Failed(s, [Prepared(true), CleanupBegin, CleanupEnd]))
  {
    var s1 := Cleaning(s, who, w, false, [Prepared(true)]);
    var s2 := Cleaning(s, who, w, true, [Prepared(true), CleanupBegin]);
    assert [Prepared(true)] + [CleanupBegin] == [Prepared(true), CleanupBegin];
    LeadsOne(s1, L(true), s2);
    assert [Prepared(true), CleanupBegin] + [CleanupEnd] == [Prepared(true), CleanupBegin, CleanupEnd];
    LeadsOne(s2, L(true), Failed(s, [Prepared(true), CleanupBegin, CleanupEnd]));
    Two(s1, L(true), s2, L(true), Failed(s, [Prepared(true), CleanupBegin, CleanupEnd]));
  }

  /** pthread_create fails: onCleanup follows onPrepare. */
  lemma StartWithoutThread(s: Sys, who: ThreadId, w: Worker, id: ThreadId)
    requires AtBegin(s, who, w) && Fresh(s, id)
    ensures Leads(s, [L(true), L(true), L(true)] + ([LifeStep(false, id), L(true)] + [L(true), L(true)]),
                  Failed(s, [Prepared(true), CleanupBegin, CleanupEnd]))
  {
    Creates(s, who, w);
    var s1, s2 := Starting(s, who, w, Create, [Prepared(true)]), Starting(s, who, w, Fail(true), [Prepared(true)]);
    var s3, s4 := Cleaning(s, who, w, false, [Prepared(true)]), Failed(s, [Prepared(true), CleanupBegin, CleanupEnd]);
    LeadsOne(s1, LifeStep(false, id), s2);
    LeadsOne(s2, L(true), s3);
    Two(s1, LifeStep(false, id), s2, L(true), s3);
    CleansUp(s, who, w);
    LeadsJoin(s1, [LifeStep(false, id), L(true)], s3, [L(true), L(true)], s4);
    LeadsJoin(s, [L(true), L(true), L(true)], s1, [LifeStep(false, id), L(true)] + [L(true), L(true)], s4);
  }

  /** The session under way with its thread, before `who` releases it. */
  function Created(s: Sys, who: ThreadId, w: Worker, pc: LifePc, id: ThreadId, stored: bool, work: WorkPc): Sys {
    Starting(s, who, w, pc, [Prepared(true)]).(
    d := RESET.(state := ThreadState.Starting, worker := w, id := if stored then id else NO_THREAD,
                threadReady := work == AwaitRelease),
    threads := s.threads[id := work], cur := id, unjoined := true)
  }

  /** What a successful start leaves: Running under the new thread's id, which is about to call run. */
  function Started(s: Sys, w: Worker, id: ThreadId): Sys {
    s.(life := Free, open := true, trace := [Prepared(true)], threads := s.threads[id := AwaitRelease], cur := id,
       unjoined := true, d := Shared(Running, w, id, false, true, true, false, 0))
  }

  lemma Publishes(s: Sys, who: ThreadId, w: Worker, id: ThreadId)
    requires AtBegin(s, who, w) && Fresh(s, id)
    ensures Leads(Starting(s, who, w, Create, [Prepared(true)]), [LifeStep(true, id), L(true)],
                  Created(s, who, w, AwaitReady, id, true, Born))
  {
    var s1, s2 := Starting(s, who, w, Create, [Prepared(true)]), Created(s, who, w, Publish, id, false, Born);
    LeadsOne(s1, LifeStep(true, id), s2);
    LeadsOne(s2, L(true), Created(s, who, w, AwaitReady, id, true, Born));
    Two(s1, LifeStep(true, id), s2, L(true), Created(s, who, w, AwaitReady, id, true, Born));
  }

  lemma Releases(s: Sys, who: ThreadId, w: Worker, id: ThreadId)
    requires AtBegin(s, who, w) && Fresh(s, id) && !s.notified
    ensures Leads(Created(s, who, w, AwaitReady, id, true, Born), [ThreadStep(id, true), L(true)], Started(s, w, id))
  {
    var s1 := Created(s, who, w, AwaitReady, id, true, Born);
    var s2 := Created(s, who, w, AwaitReady, id, true, AwaitRelease);
    assert s1.threads[id := AwaitRelease] == s2.threads;
    LeadsOne(s1, ThreadStep(id, true), s2);
    LeadsOne(s2, L(true), Started(s, w, id));
    Two(s1, ThreadStep(id, true), s2, L(true), Started(s, w, id));
  }

  /** Nothing fails and nobody asks for a stop: the worker is started. */
  lemma StartSucceeds(s: Sys, who: ThreadId, w: Worker, id: ThreadId)
    requires AtBegin(s, who, w) && Fresh(s, id) && !s.notified
    ensures Leads(s, [L(true), L(true), L(true)] + ([LifeStep(true, id), L(true)] + [ThreadStep(id, true), L(true)]),
                  Started(s, w, id))
  {
    Creates(s, who, w);
    Publishes(s, who, w, id);
    Releases(s, who, w, id);
    var s1, s2 := Starting(s, who, w, Create, [Prepared(true)]), Created(s, who, w, AwaitReady, id, true, Born);
    LeadsJoin(s1, [LifeStep(true, id), L(true)], s2, [ThreadStep(id, true), L(true)], Started(s, w, id));
    LeadsJoin(s, [L(true), L(true), L(true)], s1, [LifeStep(true, id), L(true)] + [ThreadStep(id, true), L(true)],
              Started(s, w, id));
  }

  // ---------------------------------------------------------------- before that

  /** start finds an idle object, and joins nobody. */
  lemma StartOfIdle(s: Sys, who: ThreadId, w: Worker)
    requires s.life.Free? && s.d == RESET && !s.open && s.trace == [] && w != NO_WORKER
    requires who !in s.requesters && who !in s.threads
    ensures var s' := s.(life := Held(who, Start(w), Begin));
            AtBegin(s', who, w) && Leads(s, [Call(who, Start(w)), L(true)], s')
  {
    var m, s' := s.(life := Held(who, Start(w), Enter)), s.(life := Held(who, Start(w), Begin));
    LeadsOne(s, Call(who, Start(w)), m);
    LeadsOne(m, L(true), s');
    Two(s, Call(who, Start(w)), m, L(true), s');
  }

  /** A session whose thread has ended and whose callbacks are over, with `life` in charge. */
  predicate Ended(s: Sys) {
    && s.d.state == Exited && s.d.worker != NO_WORKER && s.d.callbacks == 0
    && s.cur in s.threads && s.threads[s.cur] == Dead && s.d.id == s.cur
  }

  /** joinLocked has ended the session. */
  function Joined(s: Sys): Sys {
    s.(d := RESET, open := false, trace := [], sessions := s.sessions + [s.trace + [CleanupBegin, CleanupEnd]],
       unjoined := false, notified := false)
  }

  /** A step of the holder that only moves it. */
  lemma Moves(s: Sys, who: ThreadId, op: Op, pc: LifePc)
    requires s.life.Held? && s.life.owner == who && s.life.op == op && LifeEnabled(s, NO_THREAD)
    requires LifeNext(s.d, op, s.life.pc, true) == To(pc) && LifeData(s.d, op, s.life.pc, s.cur) == s.d
    requires s.life.pc.Enter? || s.life.pc.StopCheck? || s.life.pc.JoinLook? || s.life.pc.JoinThread?
             || (s.life.pc.RequestStop? && !Request(s.d).1)
    ensures Leads(s, [L(true)], s.(life := Held(who, op, pc)))
  {
    LeadsOne(s, L(true), s.(life := Held(who, op, pc)));
  }

  lemma JoinsThread(s: Sys, who: ThreadId, op: Op)
    requires Ended(s) && s.life == Held(who, op, JoinLook)
    ensures Leads(s, [L(true), L(true)], s.(life := Held(who, op, JoinAwait)))
  {
    var m := s.(life := Held(who, op, JoinThread(s.cur)));
    Moves(s, who, op, JoinThread(s.cur));
    Moves(m, who, op, JoinAwait);
    Two(s, L(true), m, L(true), s.(life := Held(who, op, JoinAwait)));
  }

  /** The session between taking the worker and the reset. */
  function Cleaned(s: Sys, pc: LifePc, more: seq<Event>): Sys
    requires s.life.Held?
  {
    s.(life := s.life.(pc := pc), d := s.d.(worker := NO_WORKER), trace := s.trace + more)
  }

  lemma JoinTakesWorker(s: Sys)
    requires Ended(s) && s.life.Held? && s.life.pc.JoinAwait?
    ensures Leads(s, [L(true)], Cleaned(s, Cleanup(false), []))
  {
    assert s.trace + [] == s.trace;
    LeadsOne(s, L(true), Cleaned(s, Cleanup(false), []));
  }

  lemma JoinCleansUp(s: Sys)
    requires s.life.Held?
    ensures Leads(Cleaned(s, Cleanup(false), []), [L(true), L(true)], Cleaned(s, JoinReset, [CleanupBegin, CleanupEnd]))
  {
    var s1, s2 := Cleaned(s, Cleanup(false), []), Cleaned(s, Cleanup(true), [CleanupBegin]);
    var s3 := Cleaned(s, JoinReset, [CleanupBegin, CleanupEnd]);
    assert s.trace + [] == s.trace && s.trace + [CleanupBegin] + [CleanupEnd] == s.trace + [CleanupBegin, CleanupEnd];
    LeadsOne(s1, L(true), s2);
    LeadsOne(s2, L(true), s3);
    Two(s1, L(true), s2, L(true), s3);
  }

  lemma JoinCleans(s: Sys)
    requires Ended(s) && s.life.Held? && s.life.pc.JoinAwait?
    ensures Leads(s, [L(true)] + [L(true), L(true)], Cleaned(s, JoinReset, [CleanupBegin, CleanupEnd]))
  {
    JoinTakesWorker(s);
    JoinCleansUp(s);
    LeadsJoin(s, [L(true)], Cleaned(s, Cleanup(false), []), [L(true), L(true)],
              Cleaned(s, JoinReset, [CleanupBegin, CleanupEnd]));
  }

  lemma JoinResets(s: Sys)
    requires Ended(s) && s.life.Held? && s.life.pc.JoinAwait?
    ensures Leads(Cleaned(s, JoinReset, [CleanupBegin, CleanupEnd]), [L(true)],
                  Joined(s).(life := if s.life.op.Start? then s.life.(pc := Begin) else Free))
  {
    LeadsOne(Cleaned(s, JoinReset, [CleanupBegin, CleanupEnd]), L(true),
             Joined(s).(life := if s.life.op.Start? then s.life.(pc := Begin) else Free));
  }

  /** joinLocked on an ended session: the thread is joined, onCleanup called, everything reset; start goes on. */
  lemma JoinLockedEnds(s: Sys, who: ThreadId, op: Op)
    requires Ended(s) && s.life == Held(who, op, JoinLook)
    ensures Leads(s, [L(true), L(true)] + (([L(true)] + [L(true), L(true)]) + [L(true)]),
                  Joined(s).(life := if op.Start? then Held(who, op, Begin) else Free))
  {
    var m := s.(life := Held(who, op, JoinAwait));
    var s' := Joined(s).(life := if op.Start? then Held(who, op, Begin) else Free);
    JoinsThread(s, who, op);
    JoinCleans(m);
    JoinResets(m);
    LeadsJoin(m, [L(true)] + [L(true), L(true)], Cleaned(m, JoinReset, [CleanupBegin, CleanupEnd]), [L(true)], s');
    LeadsJoin(s, [L(true), L(true)], m, ([L(true)] + [L(true), L(true)]) + [L(true)], s');
  }

  lemma TakesLock(s: Sys, who: ThreadId, op: Op)
    requires s.life.Free? && who !in s.requesters && who !in s.threads && (op.Start? ==> op.worker != NO_WORKER)
    requires op.Start? || !IsCurrentThread(s.d, who)
    ensures Leads(s, [Call(who, op)], s.(life := Held(who, op, Enter)))
  {
    LeadsOne(s, Call(who, op), s.(life := Held(who, op, Enter)));
  }

  /** start and join of an ended session go straight to joinLocked. */
  lemma EntersJoin(s: Sys, who: ThreadId, op: Op)
    requires Ended(s) && s.life.Free? && !op.Stop? && (op.Start? ==> op.worker != NO_WORKER)
    requires who !in s.requesters && who !in s.threads
    ensures Leads(s, [Call(who, op), L(true)], s.(life := Held(who, op, JoinLook)))
  {
    var m := s.(life := Held(who, op, Enter));
    TakesLock(s, who, op);
    Moves(m, who, op, JoinLook);
    Two(s, Call(who, op), m, L(true), s.(life := Held(who, op, JoinLook)));
  }

  /** stop makes its request, which an ended session ignores, and goes there too. */
  lemma StopEntersJoin(s: Sys, who: ThreadId)
    requires Ended(s) && s.life.Free? && who !in s.requesters && who !in s.threads
    ensures Leads(s, [Call(who, Stop), L(true)] + [L(true), L(true)], s.(life := Held(who, Stop, JoinLook)))
  {
    var s1, s2 := s.(life := Held(who, Stop, Enter)), s.(life := Held(who, Stop, RequestStop));
    var s3, s' := s.(life := Held(who, Stop, StopCheck)), s.(life := Held(who, Stop, JoinLook));
    TakesLock(s, who, Stop);
    Moves(s1, who, Stop, RequestStop);
    Two(s, Call(who, Stop), s1, L(true), s2);
    Moves(s2, who, Stop, StopCheck);
    Moves(s3, who, Stop, JoinLook);
    Two(s2, L(true), s3, L(true), s');
    LeadsJoin(s, [Call(who, Stop), L(true)], s2, [L(true), L(true)], s');
  }

  // ---------------------------------------------------------------- whole calls

  /** Only `who` in its call and thread `id` take steps, and nothing fails. */
  predicate Undisturbed(acts: seq<Act>, who: ThreadId, id: ThreadId) {
    forall a :: a in acts ==> (a.Call? && a.who == who) || (a.LifeStep? && a.yes) || a == ThreadStep(id, true)
  }

  lemma Then(s: Sys, a: seq<Act>, m: Sys, b: seq<Act>, s': Sys, who: ThreadId, id: ThreadId)
    requires Leads(s, a, m) && Leads(m, b, s') && Undisturbed(a, who, id) && Undisturbed(b, who, id)
    ensures Leads(s, a + b, s') && Undisturbed(a + b, who, id)
  {
    LeadsJoin(s, a, m, b, s');
  }

  lemma StartGoesOn(s: Sys, who: ThreadId, w: Worker, id: ThreadId) returns (acts: seq<Act>)
    requires AtBegin(s, who, w) && Fresh(s, id) && !s.notified
    ensures Undisturbed(acts, who, id) && Leads(s, acts, Started(s, w, id))
  {
    StartSucceeds(s, who, w, id);
    acts := [L(true), L(true), L(true)] + ([LifeStep(true, id), L(true)] + [ThreadStep(id, true), L(true)]);
  }

  lemma JoinLockedGoesOn(s: Sys, who: ThreadId, op: Op, id: ThreadId) returns (acts: seq<Act>)
    requires Ended(s) && s.life == Held(who, op, JoinLook)
    ensures Undisturbed(acts, who, id)
    ensures Leads(s, acts, Joined(s).(life := if op.Start? then Held(who, op, Begin) else Free))
  {
    JoinLockedEnds(s, who, op);
    acts := [L(true), L(true)] + (([L(true)] + [L(true), L(true)]) + [L(true)]);
  }

  /** start(w) of an idle object: Running, prepared, and the new thread `id` about to call run. */
  lemma StartOfIdleRuns(s: Sys, who: ThreadId, w: Worker, id: ThreadId) returns (acts: seq<Act>)
    requires Core(s) && s.life.Free? && s.d.state == Idle && s.trace == [] && w != NO_WORKER
    requires who !in s.requesters && who !in s.threads && who != id && Fresh(s, id)
    ensures Undisturbed(acts, who, id) && Leads(s, acts, Started(s, w, id))
  {
    StartOfIdle(s, who, w);
    var m := s.(life := Held(who, Start(w), Begin));
    acts := StartGoesOn(m, who, w, id);
    Then(s, [Call(who, Start(w)), L(true)], m, acts, Started(s, w, id), who, id);
    acts := [Call(who, Start(w)), L(true)] + acts;
  }

  /** A call that finds an ended session, up to the end of joinLocked. */
  lemma CallJoins(s: Sys, who: ThreadId, op: Op, id: ThreadId) returns (acts: seq<Act>)
    requires Ended(s) && s.life.Free? && who !in s.requesters && who !in s.threads
    requires op.Start? ==> op.worker != NO_WORKER
    ensures Undisturbed(acts, who, id)
    ensures Leads(s, acts, Joined(s).(life := if op.Start? then Held(who, op, Begin) else Free))
  {
    var enter := if op.Stop? then [Call(who, Stop), L(true)] + [L(true), L(true)] else [Call(who, op), L(true)];
    if op.Stop? {
      StopEntersJoin(s, who);
    } else {
      EntersJoin(s, who, op);
    }
    var m := s.(life := Held(who, op, JoinLook));
    acts := JoinLockedGoesOn(m, who, op, id);
    Then(s, enter, m, acts, Joined(s).(life := if op.Start? then Held(who, op, Begin) else Free), who, id);
    acts := enter + acts;
  }

  /** start(w) of an object whose thread has ended joins it first, with its onCleanup, and then does the same. */
  lemma StartOfEndedRuns(s: Sys, who: ThreadId, w: Worker, id: ThreadId) returns (acts: seq<Act>)
    requires Ended(s) && s.life.Free? && w != NO_WORKER
    requires who !in s.requesters && who !in s.threads && who != id && Fresh(s, id)
    ensures Undisturbed(acts, who, id) && Leads(s, acts, Started(Joined(s), w, id))
  {
    var join := CallJoins(s, who, Start(w), id);
    var m := Joined(s).(life := Held(who, Start(w), Begin));
    acts := StartGoesOn(m, who, w, id);
    Then(s, join, m, acts, Started(Joined(s), w, id), who, id);
    acts := join + acts;
  }

  /** join or stop of an object whose thread has ended: the thread is joined, onCleanup called, and all reset. */
  lemma JoinOfEndedResets(s: Sys, who: ThreadId, op: Op, id: ThreadId) returns (acts: seq<Act>)
    requires Ended(s) && s.life.Free? && !op.Start? && who !in s.requesters && who !in s.threads
    ensures Undisturbed(acts, who, id) && Leads(s, acts, Joined(s).(life := Free))
  {
    acts := CallJoins(s, who, op, id);
  }
}
