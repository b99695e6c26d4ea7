/**
 * What keeps the auto-refresh loop of web/src/app.ts going, and exactly which stretches lose it.
 *
 * The loop of an unlocked session is carried by one of three things: a pending tick of that session,
 * the round that owns the shared state, or the unlock whose paint is still to return.  Every other
 * stretch hands it on; a hide and a failed pass may drop it, and an unlock that finds something of an
 * older session still in flight leaves that behind to drop it later.
 */
module LoopSafety {
  import opened Prelude
  import opened RefreshRounds
  import opened RefreshSafety

  /** A suspended `afterUnlock`. */
  predicate Unlocking(s: State, id: nat) {
    id in s.tasks && s.tasks[id].Paint? && s.tasks[id].tail.UnlockTail?
  }

  predicate Armed(s: State) { s.refreshTimer == Some(s.sessionId) }

  /** An unlock of the live session is suspended, other than `but`. */
  ghost predicate StillUnlocking(s: State, but: Option<nat>) {
    exists id :: Some(id) != but && Unlocking(s, id) && s.tasks[id].session == s.sessionId
  }

  /** Something carries the loop of the unlocked session. */
  ghost predicate Alive(s: State) {
    s.unlocked ==> Armed(s) || s.refreshing || StillUnlocking(s, None)
  }

  ghost predicate OwnersLive(s: State) {
    forall id :: Owner(s, id) ==> s.tasks[id].session == s.sessionId
  }

  ghost predicate UnlocksLive(s: State) {
    forall id :: Unlocking(s, id) ==> s.tasks[id].session == s.sessionId
  }

  /** No round and no unlock of an older session is in flight behind an unlocked one. */
  ghost predicate Clean(s: State) {
    s.unlocked ==> OwnersLive(s) && UnlocksLive(s)
  }

  /** An unlock that overtakes a round or another unlock. */
  ghost predicate Overtakes(s: State, a: Action) {
    a.UnlockApp? && (s.refreshing || exists id :: Unlocking(s, id))
  }

  /** Resuming `id` ends the round in flight without a report, or the unlock with an exception. */
  predicate Fails(s: State, id: nat) {
    id in s.tasks &&
    match s.tasks[id]
    case Round(_, generation, _, _, at) =>
      generation == s.refreshGeneration && at.Pricing? && at.pass.Returned? && !at.pass.outcome.Report?
    case Paint(session, pass, tail) => tail.UnlockTail? && session == s.sessionId && pass == Returned(Threw)
  }

  /** The stretches that drop the loop of an unlocked session. */
  ghost predicate Drops(s: State, a: Action) {
    s.unlocked &&
    match a
    case HideTab => s.visibility == Some(s.sessionId) && !StillUnlocking(s, None)
    case Continue(id, _) =>
      Fails(s, id) && !Armed(s) && !StillUnlocking(s, Some(id)) && (s.refreshing ==> s.tasks[id].Round?)
    case _ => false
  }

  // ---------------------------------------------------------------- stretches that change no unlock

  /** The same unlocks are suspended, in the same session. */
  ghost predicate SameUnlocks(s: State, s': State) {
    && s'.sessionId == s.sessionId && s'.unlocked == s.unlocked
    && (forall id :: Unlocking(s', id) <==> Unlocking(s, id))
    && (forall id :: Unlocking(s, id) ==> s'.tasks[id].session == s.tasks[id].session)
  }

  /** `s'` has lost no carrier other than a tick and gained no foreign owner. */
  ghost predicate Carries(s: State, s': State) {
    SameUnlocks(s, s') && (OwnersLive(s) ==> OwnersLive(s'))
  }

  lemma Kept(s: State, s': State)
    requires Carries(s, s') && Clean(s)
    ensures Clean(s')
    ensures forall but :: StillUnlocking(s', but) <==> StillUnlocking(s, but)
  {
    forall but ensures StillUnlocking(s', but) <==> StillUnlocking(s, but) {
      if id :| Some(id) != but && Unlocking(s, id) && s.tasks[id].session == s.sessionId {
        assert Unlocking(s', id);
      }
      if id :| Some(id) != but && Unlocking(s', id) && s'.tasks[id].session == s'.sessionId {
        assert Unlocking(s, id);
      }
    }
  }

  lemma AbortCarries(s: State)
    requires Inv(s)
    ensures Carries(s, AbortInFlightRound(s))
  {}

  lemma TurnCarries(s: State, session: nat, kind: Kind, kickoff: bool, env: Env)
    requires Inv(s) && session == s.sessionId && !s.refreshing
    ensures var s' := StartTurn(s, session, kind, kickoff, env); Carries(s, s') && (Armed(s') || s'.refreshing)
  {
    if OnlyHeartbeat(kind, env) {
    } else if !env.online {
      RepaintCarries(s, EnterPricing(s.unlocked, false, env.reply));
    } else {
      BeginCarries(s, kind, kickoff, env);
    }
  }

  lemma RepaintCarries(s: State, pass: Pass)
    requires Inv(s)
    ensures var s' := Spawn(s, Paint(s.sessionId, pass, Discard)).(refreshTimer := Some(s.sessionId));
      Carries(s, s') && Armed(s')
  {}

  lemma BeginCarries(s: State, kind: Kind, kickoff: bool, env: Env)
    requires Inv(s) && !s.refreshing
    ensures var s' := BeginRound(s, s.sessionId, kind, kickoff, env); Carries(s, s') && s'.refreshing
  {}

  lemma TakeoverCarries(s: State, session: nat, kind: Kind, kickoff: bool, env: Env)
    requires Inv(s) && session == s.sessionId
    ensures var s' := StartTurn(AbortInFlightRound(s), session, kind, kickoff, env);
      Carries(s, s') && (Armed(s') || s'.refreshing)
  {
    InvAbort(s);
    AbortCarries(s);
    TurnCarries(AbortInFlightRound(s), session, kind, kickoff, env);
    CarriesOn(s, AbortInFlightRound(s), StartTurn(AbortInFlightRound(s), session, kind, kickoff, env));
  }

  lemma DeferCarries(s: State)
    ensures Carries(s, s.(refreshTimer := Some(s.sessionId))) && Carries(s, s)
  {}

  /** Entering a round for the live session always leaves a tick or a round behind. */
  lemma CallCarries(s: State, session: nat, kind: Kind, kickoff: bool, env: Env)
    requires Inv(s)
    ensures var s' := RunScheduledRefresh(s, session, kind, kickoff, env);
      && Carries(s, s')
      && (session == s.sessionId ==> Armed(s') || s'.refreshing)
      && (session != s.sessionId ==> s' == s)
  {
    CallCases(s, session, kind, kickoff, env);
    DeferCarries(s);
    if session == s.sessionId { TakeoverCarries(s, session, kind, kickoff, env); }
  }

  lemma CarriesOn(a: State, b: State, c: State)
    requires Carries(a, b) && Carries(b, c)
    ensures Carries(a, c)
  {}

  lemma CallKeeps(s: State, session: nat, kind: Kind, kickoff: bool, env: Env)
    requires Inv(s) && Clean(s)
    ensures var s' := RunScheduledRefresh(s, session, kind, kickoff, env); Clean(s') && (Alive(s) ==> Alive(s'))
  {
    CallCarries(s, session, kind, kickoff, env);
    Kept(s, RunScheduledRefresh(s, session, kind, kickoff, env));
  }

  lemma FireKeeps(s: State, env: Env)
    requires Inv(s) && Clean(s)
    ensures Clean(FireTimer(s, env)) && (Alive(s) ==> Alive(FireTimer(s, env)))
  {
    if s.refreshTimer.Some? {
      var s1 := s.(refreshTimer := None);
      InvFlagsOnly(s, s1);
      Kept(s, s1);
      CallCarries(s1, s.refreshTimer.value, Auto, false, env);
      Kept(s1, FireTimer(s, env));
    }
  }

  lemma TapKeeps(s: State, env: Env)
    requires Inv(s) && Clean(s)
    ensures Clean(ManualRefresh(s, env)) && (Alive(s) ==> Alive(ManualRefresh(s, env)))
  {
    FlagsKeep(s, s.(lastManualAt := env.now));
    FlagsKeep(s, s.(lastManualAt := env.now, promoteToManual := true));
    CallKeeps(s.(lastManualAt := env.now), s.sessionId, Manual, false, env);
  }

  lemma FlagsKeep(s: State, s': State)
    requires Inv(s) && Clean(s)
    requires s' == s.(promoteToManual := s'.promoteToManual, lastManualAt := s'.lastManualAt,
                      lastWakeAt := s'.lastWakeAt)
    ensures Inv(s') && Clean(s') && (Alive(s) ==> Alive(s'))
  {
    InvFlagsOnly(s, s');
    Kept(s, s');
  }

  lemma RepaintKeeps(s: State, session: nat, reply: Reply)
    requires Inv(s) && Clean(s)
    ensures var s' := Step(s, Repaint(session, reply)); Clean(s') && (Alive(s) ==> Alive(s'))
  {
    Kept(s, Step(s, Repaint(session, reply)));
  }

  // ---------------------------------------------------------------- resumed functions

  lemma MovedCarries(s: State, id: nat, t: Task, shown: seq<Event>)
    requires Inv(s) && id in s.tasks && SameTask(s.tasks[id], t) && (t.Paint? ==> t.tail == s.tasks[id].tail)
    ensures Carries(s, s.(tasks := s.tasks[id := t], trace := s.trace + shown))
  {}

  lemma FinishedCarries(s: State, id: nat)
    requires Inv(s) && id in s.tasks && s.tasks[id].Round?
    ensures Carries(s, Finish(ReleaseIfOwned(s, s.tasks[id].generation), id))
  {}

  /** A round that ends: the loop is dropped exactly when it was the last carrier and brought no report. */
  lemma EndedRound(s: State, id: nat, t: Task, o: PassOutcome)
    requires Inv(s) && Clean(s) && s.unlocked
    requires id in s.tasks && t == s.tasks[id] && t.Round? && t.at == Pricing(Returned(o))
    ensures var s' := FinishRound(s, id, t, o);
      Clean(s') && (Alive(s) ==> (Alive(s') <==> !(Fails(s, id) && !Armed(s) && !StillUnlocking(s, Some(id)))))
  {
    var s1 := Finish(ReleaseIfOwned(s, t.generation), id);
    FinishedCarries(s, id);
    InvReleaseAndFinish(s, id);
    Kept(s, FinishRound(s, id, t, o));
    assert StillUnlocking(s, Some(id)) <==> StillUnlocking(s, None) by {
      if k :| Unlocking(s, k) && s.tasks[k].session == s.sessionId { assert k != id; }
    }
    if t.generation == s.refreshGeneration {
      assert Owner(s, id);
    } else {
      assert s1.refreshing == s.refreshing;
    }
  }

  lemma ResumedRound(s: State, id: nat, r: Resumption)
    requires Inv(s) && Clean(s) && s.unlocked && id in s.tasks && s.tasks[id].Round?
    ensures var s' := ResumeRound(s, id, r);
      Clean(s') && (Alive(s) ==> (Alive(s') <==> !(Fails(s, id) && !Armed(s) && !StillUnlocking(s, Some(id)))))
  {
    var t := s.tasks[id];
    match t.at {
      case Pricing(Returned(o)) => EndedRound(s, id, t, o);
      case Pricing(At(p)) =>
        var (pass, shown) := PassTurn(p, true, t.session, s.sessionId, r.env.reply);
        MovedCarries(s, id, t.(at := Pricing(pass)), shown);
        Kept(s, ResumeRound(s, id, r));
      case _ => AwaitedRound(s, id, r);
    }
  }

  lemma AwaitedRound(s: State, id: nat, r: Resumption)
    requires Inv(s) && Clean(s) && s.unlocked && id in s.tasks && s.tasks[id].Round?
    requires !s.tasks[id].at.Pricing?
    ensures Clean(ResumeRound(s, id, r)) && (Alive(s) ==> Alive(ResumeRound(s, id, r)))
  {
    var t := s.tasks[id];
    if Superseded(s, t) {
      assert t.generation == s.refreshGeneration ==> Owner(s, id);
      FinishedCarries(s, id);
      Kept(s, ResumeRound(s, id, r));
    } else {
      MovedCarries(s, id, t.(at := RoundPointAfter(s.unlocked, t.at, r)), []);
      assert s.trace + [] == s.trace;
      Kept(s, ResumeRound(s, id, r));
    }
  }

  /** The unlock is over; what is left of it is either a tick or a round, unless it threw. */
  lemma EndedUnlock(s: State, id: nat, r: Resumption)
    requires Inv(s) && Clean(s) && s.unlocked && Unlocking(s, id) && s.tasks[id].pass.Returned?
    ensures var s' := ResumePaint(s, id, r);
      && Clean(s')
      && (Alive(s) ==>
            (Alive(s') <==> !(Fails(s, id) && !Armed(s) && !StillUnlocking(s, Some(id)) && !s.refreshing)))
  {
    var t := s.tasks[id];
    var s1 := Finish(s, id);
    UnlockGone(s, id);
    InvReleaseAndFinish(s, id);
    if !t.pass.outcome.Threw? { UnlockFinished(s1, t.session, r.env); }
  }

  lemma UnlockGone(s: State, id: nat)
    requires Inv(s) && Clean(s) && s.unlocked && Unlocking(s, id)
    ensures Clean(Finish(s, id)) && (StillUnlocking(Finish(s, id), None) <==> StillUnlocking(s, Some(id)))
  {
    var s1 := Finish(s, id);
    forall k ensures Owner(s1, k) <==> Owner(s, k) {}
    if k :| Unlocking(s1, k) && s1.tasks[k].session == s1.sessionId { assert Some(k) != Some(id) && Unlocking(s, k); }
    if k :| Some(k) != Some(id) && Unlocking(s, k) && s.tasks[k].session == s.sessionId { assert Unlocking(s1, k); }
  }

  lemma UnlockFinished(s: State, session: nat, env: Env)
    requires Inv(s) && Clean(s) && s.unlocked && session == s.sessionId
    ensures Clean(FinishUnlock(s, session, env)) && Alive(FinishUnlock(s, session, env))
  {
    var s1 := s.(visibility := Some(session));
    InvFlagsOnly(s, s1);
    Kept(s, s1);
    CallCarries(s1, session, Start, true, env);
    Kept(s1, FinishUnlock(s, session, env));
  }

  lemma ResumedPaint(s: State, id: nat, r: Resumption)
    requires Inv(s) && Clean(s) && s.unlocked && id in s.tasks && s.tasks[id].Paint?
    ensures var s' := ResumePaint(s, id, r);
      && Clean(s')
      && (Alive(s) ==>
            (Alive(s') <==> !(Fails(s, id) && !Armed(s) && !StillUnlocking(s, Some(id)) && !s.refreshing)))
  {
    var t := s.tasks[id];
    match t.pass {
      case At(p) =>
        var (pass, shown) := PassTurn(p, false, t.session, s.sessionId, r.env.reply);
        MovedCarries(s, id, t.(pass := pass), shown);
        Kept(s, ResumePaint(s, id, r));
      case Returned(o) =>
        if t.tail.UnlockTail? { EndedUnlock(s, id, r); } else { Kept(s, ResumePaint(s, id, r)); }
    }
  }

  // ---------------------------------------------------------------- hides, locks and unlocks

  lemma Hides(s: State)
    requires Inv(s) && Clean(s) && s.unlocked
    ensures Clean(Hide(s)) && (Alive(s) ==> (Alive(Hide(s)) <==> !Drops(s, HideTab)))
  {
    if s.visibility == Some(s.sessionId) {
      AbortCarries(s);
      Kept(s, Hide(s));
    }
  }

  /** The listener of the live session starts a round or leaves a tick. */
  predicate Wakes(s: State, env: Env) {
    s.visibility == Some(s.sessionId) && !env.hidden && !WakeCoalesceActive(s.lastWakeAt, env.now)
  }

  lemma Shows(s: State, env: Env)
    requires Inv(s) && Clean(s) && s.unlocked
    ensures Clean(Wake(s, env)) && (Alive(Wake(s, env)) <==> Alive(s) || Wakes(s, env))
  {
    if Wakes(s, env) {
      var s1 := s.(lastWakeAt := Some(env.now));
      InvFlagsOnly(s, s1);
      Kept(s, s1);
      CallCarries(s1, s.sessionId, Auto, false, env);
      Kept(s1, Wake(s, env));
    }
  }

  lemma Unlocks(s: State, reply: Reply)
    requires Inv(s)
    ensures Alive(AfterUnlock(s, reply))
    ensures Clean(AfterUnlock(s, reply)) <==> !Overtakes(s, UnlockApp(reply))
  {
    var s' := AfterUnlock(s, reply);
    assert Unlocking(s', s.nextTask);
    forall id ensures Owner(s', id) <==> Owner(s, id) {}
    forall id ensures Unlocking(s', id) <==> Unlocking(s, id) || id == s.nextTask {}
  }

  lemma LockedIsClean(s: State, a: Action)
    requires Inv(s) && !s.unlocked && !a.UnlockApp?
    ensures !Step(s, a).unlocked
  {
    match a {
      case Fire(env) =>
        if s.refreshTimer.Some? { StaysLocked(s.(refreshTimer := None), s.refreshTimer.value, Auto, false, env); }
      case Tap(env) => StaysLocked(s.(lastManualAt := env.now), s.sessionId, Manual, false, env);
      case ShowTab(env) => StaysLocked(s.(lastWakeAt := Some(env.now)), s.sessionId, Auto, false, env);
      case Call(session, kind, kickoff, env) => StaysLocked(s, session, kind, kickoff, env);
      case Continue(id, r) =>
        if id in s.tasks && s.tasks[id].Paint? {
          StaysLocked(Finish(s, id).(visibility := Some(s.tasks[id].session)), s.tasks[id].session, Start, true, r.env);
        }
      case _ =>
    }
  }

  lemma StaysLocked(s: State, session: nat, kind: Kind, kickoff: bool, env: Env)
    ensures RunScheduledRefresh(s, session, kind, kickoff, env).unlocked == s.unlocked
  {}

  // ---------------------------------------------------------------- theorem: what loses the loop

  /**
   * A clean state is followed by a clean one exactly unless the stretch is an unlock that overtakes a
   * round or another unlock; and if the loop is alive in it, the stretch drops the loop exactly if it
   * is a hide that the listener hears, or the failure of the last thing that carried the loop.
   */
  lemma WhatLosesTheLoop(s: State, a: Action)
    requires Inv(s) && Clean(s)
    ensures Clean(Step(s, a)) <==> !Overtakes(s, a)
    ensures Alive(s) ==> (Alive(Step(s, a)) <==> !Drops(s, a))
  {
    if a.UnlockApp? {
      Unlocks(s, a.reply);
    } else if !s.unlocked {
      LockedIsClean(s, a);
    } else {
      WhatLosesTheLoopUnlocked(s, a);
    }
  }

  lemma WhatLosesTheLoopUnlocked(s: State, a: Action)
    requires Inv(s) && Clean(s) && s.unlocked && !a.UnlockApp?
    ensures Clean(Step(s, a)) && (Alive(s) ==> (Alive(Step(s, a)) <==> !Drops(s, a)))
  {
    match a {
      case Call(session, kind, kickoff, env) => CallKeeps(s, session, kind, kickoff, env);
      case Repaint(session, reply) => RepaintKeeps(s, session, reply);
      case Fire(env) => FireKeeps(s, env);
      case Tap(env) => TapKeeps(s, env);
      case Continue(id, r) =>
        if id in s.tasks {
          if s.tasks[id].Round? { ResumedRound(s, id, r); } else { ResumedPaint(s, id, r); }
        }
      case HideTab => Hides(s);
      case ShowTab(env) => Shows(s, env);
      case LockApp =>
    }
  }

  /** No unlock of the run overtakes a round or another unlock. */
  ghost predicate NoneOvertakes(run: seq<Action>) {
    forall k :: 0 <= k < |run| ==> !Overtakes(StateAt(run, k), run[k])
  }

  lemma {:induction false} CleanRuns(run: seq<Action>)
    requires NoneOvertakes(run)
    ensures Clean(Steps(FRESH_APP, run))
  {
    if run != [] {
      var front, n := run[..|run| - 1], |run| - 1;
      forall k | 0 <= k < n ensures !Overtakes(StateAt(front, k), front[k]) { assert front[..k] == run[..k]; }
      CleanRuns(front);
      LastStretch(run);
    }
  }

  lemma LastStretch(run: seq<Action>)
    requires run != [] && Clean(StateAt(run, |run| - 1))
    ensures var s, a := StateAt(run, |run| - 1), run[|run| - 1];
      && Steps(FRESH_APP, run) == Step(s, a)
      && (Clean(Steps(FRESH_APP, run)) <==> !Overtakes(s, a))
      && (Alive(s) ==> (Alive(Steps(FRESH_APP, run)) <==> !Drops(s, a)))
  {
    InvFresh();
    InvSteps(FRESH_APP, run[..|run| - 1]);
    WhatLosesTheLoop(StateAt(run, |run| - 1), run[|run| - 1]);
  }

  /**
   * In every run in which no unlock overtakes anything, the loop of the unlocked session is carried
   * from any moment `n` at which it was on, through every stretch that does not drop it.
   */
  lemma {:induction false} LoopSurvives(run: seq<Action>, n: nat)
    requires n <= |run| && NoneOvertakes(run) && Alive(StateAt(run, n))
    requires forall k :: n <= k < |run| ==> !Drops(StateAt(run, k), run[k])
    ensures Clean(Steps(FRESH_APP, run)) && Alive(Steps(FRESH_APP, run))
    decreases |run|
  {
    CleanRuns(run);
    if n == |run| {
      WholeSlice(run);
    } else {
      var front := run[..|run| - 1];
      forall k | 0 <= k < |front|
        ensures !Overtakes(StateAt(front, k), front[k]) && (n <= k ==> !Drops(StateAt(front, k), front[k]))
      {
        assert front[..k] == run[..k];
      }
      assert front[..n] == run[..n];
      LoopSurvives(front, n);
      LastStretch(run);
    }
  }

  /**
   * And at any moment of such a run, showing the page, or the return of the network link, leaves the
   * loop of the unlocked session carried if and only if it already was, or the page is visible, the
   * listener is the live session's and no wake-up of the last five seconds swallows this one.  It does
   * not matter what became of the round that the earlier wake-up began.
   */
  lemma WakeRevives(run: seq<Action>, env: Env)
    requires NoneOvertakes(run) && Steps(FRESH_APP, run).unlocked
    ensures var s := Steps(FRESH_APP, run);
      Alive(Step(s, ShowTab(env))) <==> Alive(s) || Wakes(s, env)
  {
    CleanRuns(run);
    InvFresh();
    InvSteps(FRESH_APP, run);
    ShowStep(Steps(FRESH_APP, run), env);
  }

  lemma ShowStep(s: State, env: Env)
    requires Inv(s) && Clean(s) && s.unlocked
    ensures Alive(Step(s, ShowTab(env))) <==> Alive(s) || Wakes(s, env)
  {
    Shows(s, env);
  }

  // ---------------------------------------------------------------- what an overtaking unlock does

  /** Unlocked and idle, with nothing suspended and no tick pending. */
  predicate LoopIsDead(s: State) {
    s.unlocked && !s.refreshing && s.refreshTimer.None? && s.tasks == map[]
  }

  /** A tick or a round of the live session is there to carry the loop. */
  ghost predicate Carried(s: State) {
    Armed(s) || (s.refreshing && OwnersLive(s))
  }

  /**
   * What the end of the live unlock leaves behind when no tick is pending: a tick or a live round, if
   * and only if the book is settled and no quick pull is due, or no round is in flight, or the one in
   * flight is the live session's or stale.  An overtaken round keeps it from leaving either.
   */
  lemma UnlockTailLeaves(s: State, unlock: nat, r: Resumption)
    requires Inv(s) && s.unlocked && !Armed(s)
    requires Unlocking(s, unlock) && s.tasks[unlock].session == s.sessionId
    requires s.tasks[unlock].pass.Returned? && !s.tasks[unlock].pass.outcome.Threw?
    ensures Carried(Step(s, Continue(unlock, r))) <==>
            || (r.env.settled && !r.env.quick)
            || !s.refreshing || OwnersLive(s)
            || RoundIsStale(s.refreshStartedAt, r.env.now, r.env.intervalMs)
  {
    var s1 := Finish(s, unlock).(visibility := Some(s.sessionId));
    InvReleaseAndFinish(s, unlock);
    InvFlagsOnly(Finish(s, unlock), s1);
    forall k ensures Owner(s1, k) <==> Owner(s, k) {}
    assert OwnersLive(s1) <==> OwnersLive(s);
    if !(r.env.settled && !r.env.quick) { StartLeaves(s1, r.env); }
  }

  lemma StartLeaves(s: State, env: Env)
    requires Inv(s) && !Armed(s)
    ensures Carried(RunScheduledRefresh(s, s.sessionId, Start, true, env)) <==>
            !s.refreshing || OwnersLive(s) || RoundIsStale(s.refreshStartedAt, env.now, env.intervalMs)
  {
    if !s.refreshing || RoundIsStale(s.refreshStartedAt, env.now, env.intervalMs) {
      InvAbort(s);
      TurnCarries(AbortInFlightRound(s), s.sessionId, Start, true, env);
      assert OwnersLive(AbortInFlightRound(s));
    }
  }

  /**
   * Nor does the overtaken round: once the live unlock is over, the round, superseded since, hands the
   * flags back at its next await and arms nothing.
   */
  lemma OvertakenRoundLeavesNoTick(s: State, round: nat, unlock: nat, r: Resumption, r': Resumption)
    requires Inv(s) && s.unlocked && s.refreshTimer.None?
    requires Owner(s, round) && s.tasks[round].session < s.sessionId && !s.tasks[round].at.Pricing?
    requires Unlocking(s, unlock) && s.tasks[unlock].session == s.sessionId
    requires s.tasks[unlock].pass.Returned? && !s.tasks[unlock].pass.outcome.Threw?
    requires !(r.env.settled && !r.env.quick) && !RoundIsStale(s.refreshStartedAt, r.env.now, r.env.intervalMs)
    ensures var s' := Step(Step(s, Continue(unlock, r)), Continue(round, r'));
      && s'.unlocked && !s'.refreshing && s'.refreshTimer.None? && s'.tasks == s.tasks - {unlock} - {round}
  {
    var s1 := Finish(s, unlock).(visibility := Some(s.sessionId));
    assert Step(s, Continue(unlock, r)) == s1;
    assert Superseded(s1, s1.tasks[round]);
  }

  /** No listener hears a hide, and the one installed wakes nothing. */
  ghost predicate Deaf(s: State) {
    && Step(s, HideTab) == s
    && (forall env :: Step(s, ShowTab(env)) == s)
    && s.visibility.Some?
    && forall kind, kickoff, env :: Step(s, Call(s.visibility.value, kind, kickoff, env)) == s
  }

  /**
   * An unlock of an older session that is over later than the live one, on a settled book, puts its
   * own listener and its own tick in place of the live ones: the tick stops when it fires, and neither
   * hiding nor showing the page does anything any more.
   */
  lemma OldUnlockDeafens(s: State, id: nat, r: Resumption, env: Env)
    requires s.unlocked && !s.refreshing && Unlocking(s, id) && s.tasks[id].session < s.sessionId
    requires s.tasks[id].pass.Returned? && !s.tasks[id].pass.outcome.Threw? && r.env.settled && !r.env.quick
    ensures var s1 := Step(s, Continue(id, r));
      var s' := Step(s1, Fire(env));
      && s1.refreshTimer == Some(s.tasks[id].session) && s1.visibility == Some(s.tasks[id].session)
      && s'.unlocked && !s'.refreshing && s'.refreshTimer.None? && s'.tasks == s.tasks - {id} && Deaf(s')
  {
    var stale := s.tasks[id].session;
    var s1 := Finish(s, id).(visibility := Some(stale), refreshTimer := Some(stale));
    assert Step(s, Continue(id, r)) == s1;
    var s' := s1.(refreshTimer := None);
    assert Step(s1, Fire(env)) == s';
    forall kind, kickoff, env' ensures Step(s', Call(stale, kind, kickoff, env')) == s' {}
  }
}
