/**
 * What the refresh-round protocol promises, over every interleaving of its stretches.
 *
 * `Step` lets any suspended function resume, or any outside event arrive, in any order.
 */
module RefreshSafety {
  import opened Prelude
  import opened RefreshRounds

  datatype Action =
    | Call(session: nat, kind: Kind, kickoff: bool, env: Env)
    | Repaint(session: nat, reply: Reply)
    | Fire(env: Env)
    | Tap(env: Env)
    | Continue(id: nat, r: Resumption)
    | HideTab
    | ShowTab(env: Env)
    | LockApp
    | UnlockApp(reply: Reply)

  /** One action; a session number that was never issued, or a function that is not suspended, does nothing. */
  function Step(s: State, a: Action): State {
    match a
    case Call(session, kind, kickoff, env) => RunScheduledRefresh(s, session, kind, kickoff, env)
    case Repaint(session, reply) =>
      if session > s.sessionId then s
      else Spawn(s, Paint(session, EnterPricing(s.unlocked, false, reply), Discard))
    case Fire(env) => FireTimer(s, env)
    case Tap(env) => ManualRefresh(s, env)
    case Continue(id, r) => if id in s.tasks then Resume(s, id, r) else s
    case HideTab => Hide(s)
    case ShowTab(env) => Wake(s, env)
    case LockApp => Lock(s)
    case UnlockApp(reply) => AfterUnlock(s, reply)
  }

  function Steps(s: State, run: seq<Action>): State {
    if run == [] then s else Step(Steps(s, run[..|run| - 1]), run[|run| - 1])
  }

  lemma StepsSnoc(s: State, run: seq<Action>, a: Action)
    ensures Steps(s, run + [a]) == Step(Steps(s, run), a)
  {
    assert (run + [a])[..|run|] == run;
  }

  // ---------------------------------------------------------------- the invariant

  /** An unfinished round that holds the current generation. */
  ghost predicate Owner(s: State, id: nat) {
    id in s.tasks && s.tasks[id].Round? && s.tasks[id].generation == s.refreshGeneration
  }

  predicate Honest(e: Event) {
    match e
    case Rendered(passSession, liveSession) => passSession == liveSession
    case LoadErrorShown(passSession, liveSession) => passSession == liveSession
    case Completed(_, _, _) => true
  }

  ghost predicate TasksSane(s: State) {
    && (forall id :: id in s.tasks ==> id < s.nextTask && s.tasks[id].session <= s.sessionId)
    && (forall id :: id in s.tasks && s.tasks[id].Round? ==> s.tasks[id].generation <= s.refreshGeneration)
    && (forall i, j ::
          (i in s.tasks && j in s.tasks && s.tasks[i].Round? && s.tasks[j].Round?
           && s.tasks[i].generation == s.tasks[j].generation) ==> i == j)
  }

  ghost predicate FlagsSane(s: State) {
    && (s.refreshing <==> exists id :: Owner(s, id))
    && (forall id :: Owner(s, id) ==>
          s.refreshingKind == Some(s.tasks[id].kind) && s.refreshStartedAt == Some(s.tasks[id].startedAt))
    && (!s.refreshing ==> s.refreshingKind.None? && s.refreshStartedAt.None?)
  }

  ghost predicate Inv(s: State) {
    && TasksSane(s)
    && FlagsSane(s)
    && (forall i :: 0 <= i < |s.trace| ==> Honest(s.trace[i]))
    && (s.refreshTimer.Some? ==> s.refreshTimer.value <= s.sessionId)
    && (s.visibility.Some? ==> s.visibility.value <= s.sessionId)
  }

  // ---------------------------------------------------------------- every stretch keeps the invariant

  /** Fields the ownership clauses do not mention may change freely. */
  lemma InvFlagsOnly(s: State, s': State)
    requires Inv(s)
    requires s' == s.(promoteToManual := s'.promoteToManual, lastManualAt := s'.lastManualAt,
                      lastWakeAt := s'.lastWakeAt, refreshTimer := s'.refreshTimer,
                      visibility := s'.visibility, trace := s'.trace)
    requires s'.refreshTimer.Some? ==> s'.refreshTimer.value <= s.sessionId
    requires s'.visibility.Some? ==> s'.visibility.value <= s.sessionId
    requires forall i :: 0 <= i < |s'.trace| ==> Honest(s'.trace[i])
    ensures Inv(s')
  {
    forall k ensures Owner(s', k) <==> Owner(s, k) {}
    if s.refreshing { var k :| Owner(s, k); assert Owner(s', k); }
  }

  lemma InvSpawnPaint(s: State, t: Task)
    requires Inv(s) && t.Paint? && t.session <= s.sessionId
    ensures Inv(Spawn(s, t))
  {
    var s' := Spawn(s, t);
    forall id ensures Owner(s', id) <==> Owner(s, id) {}
    if s.refreshing { var id :| Owner(s, id); assert Owner(s', id); }
  }

  lemma InvAbort(s: State)
    requires Inv(s)
    ensures Inv(AbortInFlightRound(s)) && !AbortInFlightRound(s).refreshing
  {}

  lemma InvBegin(s: State, session: nat, kind: Kind, kickoff: bool, env: Env)
    requires Inv(s) && !s.refreshing && session == s.sessionId
    ensures Inv(BeginRound(s, session, kind, kickoff, env))
  {
    var s' := BeginRound(s, session, kind, kickoff, env);
    assert Owner(s', s.nextTask);
  }

  lemma InvArm(s: State, session: nat)
    requires Inv(s) && session <= s.sessionId
    ensures Inv(s.(refreshTimer := Some(session)))
  {
    InvFlagsOnly(s, s.(refreshTimer := Some(session)));
  }

  lemma InvPaintAndArm(s: State, t: Task)
    requires Inv(s) && t.Paint? && t.session <= s.sessionId
    ensures Inv(Spawn(s, t).(refreshTimer := Some(t.session)))
  {
    InvSpawnPaint(s, t);
    InvArm(Spawn(s, t), t.session);
  }

  lemma InvRunScheduledRefresh(s: State, session: nat, kind: Kind, kickoff: bool, env: Env)
    requires Inv(s)
    ensures Inv(RunScheduledRefresh(s, session, kind, kickoff, env))
  {
    match RefreshTickAction(session == s.sessionId, kind, env.hidden, kickoff)
    case Stop =>
    case Defer => InvArm(s, session);
    case Run =>
      if s.refreshing && !RoundIsStale(s.refreshStartedAt, env.now, env.intervalMs) { return; }
      var s1 := AbortInFlightRound(s);
      InvAbort(s);
      InvStartTurn(s1, session, kind, kickoff, env);
  }

  lemma InvStartTurn(s: State, session: nat, kind: Kind, kickoff: bool, env: Env)
    requires Inv(s) && !s.refreshing && session == s.sessionId
    ensures Inv(StartTurn(s, session, kind, kickoff, env))
  {
    if OnlyHeartbeat(kind, env) {
      InvArm(s, session);
    } else if !env.online {
      InvPaintAndArm(s, Paint(session, EnterPricing(s.unlocked, false, env.reply), Discard));
    } else {
      InvBegin(s, session, kind, kickoff, env);
    }
  }

  /** Suspending a task at a later point changes nothing the invariant speaks of. */
  lemma InvMoveTask(s: State, id: nat, t: Task, shown: seq<Event>)
    requires Inv(s) && id in s.tasks
    requires t.session == s.tasks[id].session && t.Round? == s.tasks[id].Round?
    requires t.Round? ==> t == s.tasks[id].(at := t.at)
    requires forall i :: 0 <= i < |shown| ==> Honest(shown[i])
    ensures Inv(s.(tasks := s.tasks[id := t], trace := s.trace + shown))
  {
    var s' := s.(tasks := s.tasks[id := t], trace := s.trace + shown);
    forall k ensures Owner(s', k) <==> Owner(s, k) {}
    if s.refreshing { var k :| Owner(s, k); assert Owner(s', k); }
  }

  lemma InvReleaseAndFinish(s: State, id: nat)
    requires Inv(s) && id in s.tasks
    ensures s.tasks[id].Round? ==> Inv(Finish(ReleaseIfOwned(s, s.tasks[id].generation), id))
    ensures s.tasks[id].Paint? ==> Inv(Finish(s, id))
  {
    var t := s.tasks[id];
    var s' := if t.Round? then Finish(ReleaseIfOwned(s, t.generation), id) else Finish(s, id);
    if Owner(s, id) {
      assert forall k :: !Owner(s', k);
    } else {
      forall k ensures Owner(s', k) <==> Owner(s, k) {}
      if s.refreshing { var k :| Owner(s, k); assert Owner(s', k); }
    }
  }

  lemma InvFinishRound(s: State, id: nat, t: Task, o: PassOutcome)
    requires Inv(s) && id in s.tasks && t == s.tasks[id] && t.Round?
    ensures Inv(FinishRound(s, id, t, o))
  {
    InvReleaseAndFinish(s, id);
    InvFlagsOnly(Finish(ReleaseIfOwned(s, t.generation), id), FinishRound(s, id, t, o));
  }

  lemma InvResumeRound(s: State, id: nat, r: Resumption)
    requires Inv(s) && id in s.tasks && s.tasks[id].Round?
    ensures Inv(ResumeRound(s, id, r))
  {
    var t := s.tasks[id];
    match t.at {
      case Pricing(Returned(o)) => InvFinishRound(s, id, t, o);
      case Pricing(At(p)) =>
        var (pass, shown) := PassTurn(p, true, t.session, s.sessionId, r.env.reply);
        InvMoveTask(s, id, t.(at := Pricing(pass)), shown);
      case _ =>
        if Superseded(s, t) {
          InvReleaseAndFinish(s, id);
        } else {
          InvMoveTask(s, id, t.(at := RoundPointAfter(s.unlocked, t.at, r)), []);
          assert s.trace + [] == s.trace;
        }
    }
  }

  lemma InvResumePaint(s: State, id: nat, r: Resumption)
    requires Inv(s) && id in s.tasks && s.tasks[id].Paint?
    ensures Inv(ResumePaint(s, id, r))
  {
    var t := s.tasks[id];
    match t.pass
    case At(p) =>
      var (pass, shown) := PassTurn(p, false, t.session, s.sessionId, r.env.reply);
      InvMoveTask(s, id, t.(pass := pass), shown);
    case Returned(o) =>
      InvReleaseAndFinish(s, id);
      var s1 := Finish(s, id).(visibility := Some(t.session));
      InvFlagsOnly(Finish(s, id), s1);
      InvRunScheduledRefresh(s1, t.session, Start, true, r.env);
      InvArm(s1, t.session);
  }

  lemma InvLock(s: State)
    requires Inv(s)
    ensures Inv(Lock(s)) && !Lock(s).refreshing
  {
    var s1 := AbortInFlightRound(s);
    InvAbort(s);
    forall k ensures Owner(Lock(s), k) <==> Owner(s1, k) {}
  }

  lemma InvNewSession(s: State)
    requires Inv(s)
    ensures Inv(s.(sessionId := s.sessionId + 1, unlocked := true))
  {
    var s1 := s.(sessionId := s.sessionId + 1, unlocked := true);
    forall k ensures Owner(s1, k) <==> Owner(s, k) {}
    if s.refreshing { var k :| Owner(s, k); assert Owner(s1, k); }
  }

  lemma InvAfterUnlock(s: State, reply: Reply)
    requires Inv(s)
    ensures Inv(AfterUnlock(s, reply))
  {
    InvNewSession(s);
    InvSpawnPaint(s.(sessionId := s.sessionId + 1, unlocked := true),
                  Paint(s.sessionId + 1, EnterPricing(true, false, reply), UnlockTail));
  }

  lemma InvFireTimer(s: State, env: Env)
    requires Inv(s)
    ensures Inv(FireTimer(s, env))
  {
    if s.refreshTimer.Some? {
      InvFlagsOnly(s, s.(refreshTimer := None));
      InvRunScheduledRefresh(s.(refreshTimer := None), s.refreshTimer.value, Auto, false, env);
    }
  }

  lemma InvWake(s: State, env: Env)
    requires Inv(s)
    ensures Inv(Wake(s, env))
  {
    InvFlagsOnly(s, s.(lastWakeAt := Some(env.now)));
    InvRunScheduledRefresh(s.(lastWakeAt := Some(env.now)), s.sessionId, Auto, false, env);
  }

  lemma InvManualRefresh(s: State, env: Env)
    requires Inv(s)
    ensures Inv(ManualRefresh(s, env))
  {
    InvFlagsOnly(s, s.(lastManualAt := env.now, promoteToManual := true));
    InvFlagsOnly(s, s.(lastManualAt := env.now));
    InvRunScheduledRefresh(s.(lastManualAt := env.now), s.sessionId, Manual, false, env);
  }

  lemma InvStep(s: State, a: Action)
    requires Inv(s)
    ensures Inv(Step(s, a))
  {
    match a
    case Call(session, kind, kickoff, env) => InvRunScheduledRefresh(s, session, kind, kickoff, env);
    case Repaint(session, reply) =>
      if session <= s.sessionId {
        InvSpawnPaint(s, Paint(session, EnterPricing(s.unlocked, false, reply), Discard));
      }
    case Fire(env) =>
      InvFireTimer(s, env);
    case Tap(env) =>
      InvManualRefresh(s, env);
    case Continue(id, r) =>
      if id in s.tasks {
        if s.tasks[id].Round? { InvResumeRound(s, id, r); } else { InvResumePaint(s, id, r); }
      }
    case HideTab =>
      InvAbort(s);
      InvFlagsOnly(AbortInFlightRound(s), AbortInFlightRound(s).(refreshTimer := None));
    case ShowTab(env) => InvWake(s, env);
    case LockApp => InvLock(s);
    case UnlockApp(reply) => InvAfterUnlock(s, reply);
  }

  lemma {:induction false} InvSteps(s: State, run: seq<Action>)
    requires Inv(s)
    ensures Inv(Steps(s, run))
  {
    if run != [] {
      InvSteps(s, run[..|run| - 1]);
      InvStep(Steps(s, run[..|run| - 1]), run[|run| - 1]);
    }
  }

  lemma InvFresh()
    ensures Inv(FRESH_APP)
  {}

  // ---------------------------------------------------------------- theorem: ownership

  /**
   * In every run: `refreshing` is set exactly when an unfinished round holds the current
   * generation, that round is the only one, and the kind and start instant on display are its own.
   */
  lemma OneOwner(run: seq<Action>)
    ensures var s := Steps(FRESH_APP, run);
      && (s.refreshing <==> exists id :: Owner(s, id))
      && (forall i, j :: Owner(s, i) && Owner(s, j) ==> i == j)
      && (forall id :: Owner(s, id) ==> s.refreshingKind == Some(s.tasks[id].kind)
                                        && s.refreshStartedAt == Some(s.tasks[id].startedAt))
      && (!s.refreshing ==> s.refreshingKind.None? && s.refreshStartedAt.None?)
  {
    InvFresh();
    InvSteps(FRESH_APP, run);
  }

  /** In every run, whatever reached the screen came from a pass of the session then live. */
  lemma OldSessionsNeverPaint(run: seq<Action>, i: nat)
    requires i < |Steps(FRESH_APP, run).trace|
    ensures Honest(Steps(FRESH_APP, run).trace[i])
  {
    InvFresh();
    InvSteps(FRESH_APP, run);
  }

  // ---------------------------------------------------------------- theorem: superseded rounds

  /** `s'` differs from `s` in nothing that belongs to anyone but the superseded round `id`. */
  ghost predicate LeavesOthersAlone(s: State, s': State, id: nat)
    requires id in s.tasks && s.tasks[id].Round?
  {
    && s'.refreshTimer == s.refreshTimer && s'.visibility == s.visibility
    && s'.sessionId == s.sessionId && s'.refreshGeneration == s.refreshGeneration
    && s'.tasks - {id} == s.tasks - {id}
    && (s.tasks[id].generation != s.refreshGeneration ==>
          s'.refreshing == s.refreshing && s'.refreshingKind == s.refreshingKind
          && s'.refreshStartedAt == s.refreshStartedAt && s'.promoteToManual == s.promoteToManual)
    && (s'.refreshing ==> s.refreshing && s'.promoteToManual == s.promoteToManual)
    && (s.refreshing && !s'.refreshing ==> Owner(s, id) && id !in s'.tasks)
  }

  /** The record grew, but not by the completion of a round; from an ended session it did not grow. */
  ghost predicate RecordsNoCompletion(s: State, s': State, session: nat) {
    && s.trace <= s'.trace
    && (forall i :: |s.trace| <= i < |s'.trace| ==> !s'.trace[i].Completed?)
    && (session != s.sessionId ==> s'.trace == s.trace)
  }

  lemma SupersededFinish(s: State, id: nat, t: Task, o: PassOutcome)
    requires Inv(s) && id in s.tasks && t == s.tasks[id] && t.Round? && Superseded(s, t)
    ensures LeavesOthersAlone(s, FinishRound(s, id, t, o), id)
    ensures RecordsNoCompletion(s, FinishRound(s, id, t, o), t.session)
  {
    var s' := FinishRound(s, id, t, o);
    assert s'.tasks == s.tasks - {id} && s'.trace == s.trace;
    if s.refreshing && t.generation == s.refreshGeneration { assert Owner(s, id); }
  }

  lemma SupersededTurn(s: State, id: nat, t: Task, p: PassPoint, r: Resumption)
    requires id in s.tasks && t == s.tasks[id] && t.Round? && t.at == Pricing(At(p))
    ensures LeavesOthersAlone(s, ResumeRound(s, id, r), id)
    ensures RecordsNoCompletion(s, ResumeRound(s, id, r), t.session)
  {
    var (pass, shown) := PassTurn(p, true, t.session, s.sessionId, r.env.reply);
    var s' := s.(tasks := s.tasks[id := t.(at := Pricing(pass))], trace := s.trace + shown);
    assert ResumeRound(s, id, r) == s';
    assert s'.tasks - {id} == s.tasks - {id};
  }

  lemma SupersededAwait(s: State, id: nat, t: Task)
    requires Inv(s) && id in s.tasks && t == s.tasks[id] && t.Round?
    ensures LeavesOthersAlone(s, Finish(ReleaseIfOwned(s, t.generation), id), id)
    ensures RecordsNoCompletion(s, Finish(ReleaseIfOwned(s, t.generation), id), t.session)
  {
    var s' := Finish(ReleaseIfOwned(s, t.generation), id);
    assert s'.tasks - {id} == s.tasks - {id};
    if s.refreshing && t.generation == s.refreshGeneration { assert Owner(s, id); }
  }

  /**
   * Resuming a superseded round arms no timer, completes nothing and touches no other task.  If a
   * newer generation exists it changes no shared flag; if only its session ended, it either leaves
   * the flags alone or hands back the ones it still holds.  From an older session it paints nothing.
   */
  lemma SupersededIsInert(s: State, id: nat, r: Resumption)
    requires Inv(s) && id in s.tasks && s.tasks[id].Round? && Superseded(s, s.tasks[id])
    ensures LeavesOthersAlone(s, Resume(s, id, r), id)
    ensures RecordsNoCompletion(s, Resume(s, id, r), s.tasks[id].session)
  {
    var t := s.tasks[id];
    match t.at {
      case Pricing(Returned(o)) => SupersededFinish(s, id, t, o);
      case Pricing(At(p)) => SupersededTurn(s, id, t, p, r);
      case _ => SupersededAwait(s, id, t);
    }
  }

  // ---------------------------------------------------------------- whole runs

  predicate SameTask(t: Task, u: Task) {
    t.session == u.session && t.Round? == u.Round?
    && (t.Round? ==> u == t.(at := u.at))
  }

  /** Tokens only grow, and a task's identity is fixed from the moment it is created. */
  ghost predicate Grows(s: State, s': State) {
    && s.sessionId <= s'.sessionId && s.refreshGeneration <= s'.refreshGeneration && s.nextTask <= s'.nextTask
    && (forall id :: id in s'.tasks && id < s.nextTask ==> id in s.tasks && SameTask(s.tasks[id], s'.tasks[id]))
  }

  lemma StartTurnGrows(s: State, session: nat, kind: Kind, kickoff: bool, env: Env)
    ensures Grows(s, StartTurn(AbortInFlightRound(s), session, kind, kickoff, env))
  {
    assert Grows(s, AbortInFlightRound(s));
  }

  /** What an entry into a round can come to: nothing, a deferred tick, or a turn of its own. */
  lemma CallCases(s: State, session: nat, kind: Kind, kickoff: bool, env: Env)
    ensures var s' := RunScheduledRefresh(s, session, kind, kickoff, env);
      || (s' == s && (session == s.sessionId ==> s.refreshing))
      || (s' == s.(refreshTimer := Some(session)) && session == s.sessionId)
      || (s' == StartTurn(AbortInFlightRound(s), session, kind, kickoff, env) && session == s.sessionId)
  {}

  lemma RunScheduledRefreshGrows(s: State, session: nat, kind: Kind, kickoff: bool, env: Env)
    ensures Grows(s, RunScheduledRefresh(s, session, kind, kickoff, env))
  {
    CallCases(s, session, kind, kickoff, env);
    StartTurnGrows(s, session, kind, kickoff, env);
  }

  lemma ResumeRoundGrows(s: State, id: nat, r: Resumption)
    requires id in s.tasks && s.tasks[id].Round?
    ensures Grows(s, ResumeRound(s, id, r))
  {
    var t, s' := s.tasks[id], ResumeRound(s, id, r);
    match t.at {
      case Pricing(Returned(o)) => FinishRoundTasks(s, id, t, o);
      case Pricing(At(p)) =>
      case _ => if Superseded(s, t) { assert s'.tasks == s.tasks - {id}; }
    }
  }

  lemma FinishRoundTasks(s: State, id: nat, t: Task, o: PassOutcome)
    requires t.Round?
    ensures var s' := FinishRound(s, id, t, o);
      s'.tasks == s.tasks - {id} && s'.nextTask == s.nextTask
      && s'.sessionId == s.sessionId && s'.refreshGeneration == s.refreshGeneration
  {}

  lemma ResumePaintGrows(s: State, id: nat, r: Resumption)
    requires id in s.tasks && s.tasks[id].Paint?
    ensures Grows(s, ResumePaint(s, id, r))
  {
    var t := s.tasks[id];
    if t.pass.Returned? {
      var s1 := Finish(s, id).(visibility := Some(t.session));
      RunScheduledRefreshGrows(s1, t.session, Start, true, r.env);
    }
  }

  lemma StepGrows(s: State, a: Action)
    ensures Grows(s, Step(s, a))
  {
    match a
    case Call(session, kind, kickoff, env) => RunScheduledRefreshGrows(s, session, kind, kickoff, env);
    case Fire(env) =>
      if s.refreshTimer.Some? {
        RunScheduledRefreshGrows(s.(refreshTimer := None), s.refreshTimer.value, Auto, false, env);
      }
    case Tap(env) => RunScheduledRefreshGrows(s.(lastManualAt := env.now), s.sessionId, Manual, false, env);
    case ShowTab(env) => RunScheduledRefreshGrows(s.(lastWakeAt := Some(env.now)), s.sessionId, Auto, false, env);
    case Continue(id, r) =>
      if id in s.tasks {
        if s.tasks[id].Round? { ResumeRoundGrows(s, id, r); } else { ResumePaintGrows(s, id, r); }
      }
    case _ =>
  }

  lemma {:induction false} StepsGrow(s: State, run: seq<Action>, n: nat)
    requires n <= |run|
    ensures Grows(Steps(s, run[..n]), Steps(s, run))
    decreases |run| - n
  {
    if n == |run| {
      assert run[..n] == run;
    } else {
      StepsGrow(s, run, n + 1);
      assert run[..n + 1][..n] == run[..n];
      StepGrows(Steps(s, run[..n]), run[n]);
    }
  }

  /** Resuming round `id` in `s` completes it: its report is in and it is not superseded. */
  predicate Completes(s: State, id: nat) {
    id in s.tasks && s.tasks[id].Round? && s.tasks[id].at == Pricing(Returned(Report)) && !Superseded(s, s.tasks[id])
  }

  /** Completing a round records it, arms the next tick for the live session and idles the app. */
  lemma CompletionRecord(s: State, id: nat, r: Resumption)
    requires Inv(s) && Completes(s, id)
    ensures var s' := Resume(s, id, r);
      && s'.trace == s.trace + [Completed(s.sessionId, s.refreshGeneration, s.promoteToManual)]
      && s'.refreshTimer == Some(s.sessionId) && !s'.refreshing && !s'.promoteToManual && id !in s'.tasks
      && (forall k :: !Owner(s', k))
  {
    InvResumeRound(s, id, r);
  }

  lemma CallRecordsNothing(s: State, session: nat, kind: Kind, kickoff: bool, env: Env)
    ensures RunScheduledRefresh(s, session, kind, kickoff, env).trace == s.trace
  {
    TurnRecordsNothing(AbortInFlightRound(s), session, kind, kickoff, env);
  }

  lemma TurnRecordsNothing(s: State, session: nat, kind: Kind, kickoff: bool, env: Env)
    ensures StartTurn(s, session, kind, kickoff, env).trace == s.trace
  {}

  lemma RoundRecordsOnlyCompletion(s: State, id: nat, r: Resumption)
    requires Inv(s) && id in s.tasks && s.tasks[id].Round? && !Completes(s, id)
    ensures RecordsNoCompletion(s, ResumeRound(s, id, r), s.sessionId)
  {
    var t := s.tasks[id];
    match t.at {
      case Pricing(Returned(o)) => assert FinishRound(s, id, t, o).trace == s.trace;
      case Pricing(At(p)) => SupersededTurn(s, id, t, p, r);
      case _ => assert ResumeRound(s, id, r).trace == s.trace;
    }
  }

  lemma PaintRecordsNoCompletion(s: State, id: nat, r: Resumption)
    requires id in s.tasks && s.tasks[id].Paint?
    ensures RecordsNoCompletion(s, ResumePaint(s, id, r), s.sessionId)
  {
    var t := s.tasks[id];
    if t.pass.Returned? {
      CallRecordsNothing(Finish(s, id).(visibility := Some(t.session)), t.session, Start, true, r.env);
      assert ResumePaint(s, id, r).trace == s.trace;
    }
  }

  /** Nothing but a completing round records a completion. */
  lemma OnlyCompletionIsRecorded(s: State, a: Action)
    requires Inv(s) && !(a.Continue? && Completes(s, a.id))
    ensures RecordsNoCompletion(s, Step(s, a), s.sessionId)
  {
    match a {
      case Call(session, kind, kickoff, env) => CallRecordsNothing(s, session, kind, kickoff, env);
      case Fire(env) =>
        if s.refreshTimer.Some? {
          CallRecordsNothing(s.(refreshTimer := None), s.refreshTimer.value, Auto, false, env);
        }
      case Tap(env) => CallRecordsNothing(s.(lastManualAt := env.now), s.sessionId, Manual, false, env);
      case ShowTab(env) => CallRecordsNothing(s.(lastWakeAt := Some(env.now)), s.sessionId, Auto, false, env);
      case Continue(id, r) =>
        if id in s.tasks {
          if s.tasks[id].Round? { RoundRecordsOnlyCompletion(s, id, r); } else { PaintRecordsNoCompletion(s, id, r); }
        }
      case _ =>
    }
  }

  ghost function StateAt(run: seq<Action>, k: nat): State
    requires k <= |run|
  {
    Steps(FRESH_APP, run[..k])
  }

  /**
   * A round that completes has owned the shared state without a break since it was first seen: at
   * every moment in between its session was live, its generation current and `refreshing` set, so
   * no lock, hide, takeover or other round came between.
   */
  lemma CompletionIsUninterrupted(run: seq<Action>, n: nat, k: nat, id: nat)
    requires n <= k <= |run|
    requires id < StateAt(run, n).nextTask && Completes(StateAt(run, |run|), id)
    ensures var s, t := StateAt(run, k), StateAt(run, |run|).tasks[id];
      && Owner(s, id) && SameTask(s.tasks[id], t)
      && s.sessionId == t.session && s.refreshGeneration == t.generation
      && s.refreshing && s.refreshingKind == Some(t.kind)
  {
    assert run[..|run|] == run;
    StepsGrow(FRESH_APP, run, k);
    assert run[..k][..n] == run[..n];
    StepsGrow(FRESH_APP, run[..k], n);
    InvFresh();
    InvSteps(FRESH_APP, run[..k]);
    assert Owner(StateAt(run, k), id);
  }

  /** The action is a tap on Refresh that promotes the automatic round in flight. */
  predicate TapPromotes(s: State, a: Action) {
    a.Tap? && ManualRefreshDecision(s.refreshing, s.refreshingKind, s.lastManualAt, a.env.now).Promote?
  }

  /** An entry into `runScheduledRefresh` lowers the promotion flag only by starting a new generation. */
  lemma PromotionAcrossCall(s: State, session: nat, kind: Kind, kickoff: bool, env: Env)
    requires s.refreshing
    ensures var s' := RunScheduledRefresh(s, session, kind, kickoff, env);
      s'.refreshGeneration == s.refreshGeneration ==> s'.promoteToManual == s.promoteToManual
  {}

  lemma PromotionAcrossPaint(s: State, id: nat, r: Resumption)
    requires s.refreshing && id in s.tasks && s.tasks[id].Paint?
    ensures var s' := ResumePaint(s, id, r);
      s'.refreshGeneration == s.refreshGeneration ==> s'.promoteToManual == s.promoteToManual
  {
    if s.tasks[id].pass.Returned? {
      var session := s.tasks[id].session;
      PromotionAcrossCall(Finish(s, id).(visibility := Some(session)), session, Start, true, r.env);
    }
  }

  /** While one round keeps the shared state, only a promoting tap changes the promotion flag. */
  lemma PromotionStep(s: State, a: Action, id: nat)
    requires Inv(s) && Owner(s, id)
    requires var s' := Step(s, a);
      Owner(s', id) && s'.refreshGeneration == s.refreshGeneration && s'.sessionId == s.sessionId
    ensures Step(s, a).promoteToManual == (s.promoteToManual || TapPromotes(s, a))
  {
    match a {
      case Call(session, kind, kickoff, env) => PromotionAcrossCall(s, session, kind, kickoff, env);
      case Fire(env) =>
        if s.refreshTimer.Some? {
          PromotionAcrossCall(s.(refreshTimer := None), s.refreshTimer.value, Auto, false, env);
        }
      case Tap(env) => PromotionAcrossCall(s.(lastManualAt := env.now), s.sessionId, Manual, false, env);
      case ShowTab(env) => PromotionAcrossCall(s.(lastWakeAt := Some(env.now)), s.sessionId, Auto, false, env);
      case Continue(k, r) =>
        if k in s.tasks {
          if s.tasks[k].Paint? {
            PromotionAcrossPaint(s, k, r);
          } else {
            PromotionAcrossRound(s, k, r, id);
          }
        }
      case _ =>
    }
  }

  lemma PromotionAcrossRound(s: State, k: nat, r: Resumption, id: nat)
    requires Inv(s) && Owner(s, id) && k in s.tasks && s.tasks[k].Round?
    requires id in ResumeRound(s, k, r).tasks
    ensures ResumeRound(s, k, r).promoteToManual == s.promoteToManual
  {
    if k != id {
      SupersededIsInert(s, k, r);
    } else if s.tasks[k].at.Pricing? && s.tasks[k].at.pass.Returned? {
      FinishRoundTasks(s, k, s.tasks[k], s.tasks[k].at.pass.outcome);
    }
  }

  /** One step of the flag's life while the round that is going to complete runs. */
  lemma PromotionAt(run: seq<Action>, n: nat, k: nat, id: nat)
    requires n < k <= |run|
    requires id < StateAt(run, n).nextTask && Completes(StateAt(run, |run|), id)
    ensures StateAt(run, k).promoteToManual
            == (StateAt(run, k - 1).promoteToManual || TapPromotes(StateAt(run, k - 1), run[k - 1]))
  {
    CompletionIsUninterrupted(run, n, k - 1, id);
    CompletionIsUninterrupted(run, n, k, id);
    NextState(run, k);
    PromotionStep(StateAt(run, k - 1), run[k - 1], id);
  }

  lemma NextState(run: seq<Action>, k: nat)
    requires 0 < k <= |run|
    ensures Inv(StateAt(run, k - 1)) && StateAt(run, k) == Step(StateAt(run, k - 1), run[k - 1])
  {
    InvFresh();
    InvSteps(FRESH_APP, run[..k - 1]);
    assert run[..k][..k - 1] == run[..k - 1];
  }

  /** A tap at one of the moments `n..k` of the run promoted the round in flight. */
  ghost predicate PromotedBetween(run: seq<Action>, n: nat, k: nat)
    requires k <= |run|
  {
    exists i :: n <= i < k && TapPromotes(StateAt(run, i), run[i])
  }

  lemma PromotedBetweenNext(run: seq<Action>, n: nat, k: nat)
    requires n < k <= |run|
    ensures PromotedBetween(run, n, k)
            <==> PromotedBetween(run, n, k - 1) || TapPromotes(StateAt(run, k - 1), run[k - 1])
  {}

  /**
   * Which rounds finish as manual ones: exactly those during which a tap promoted them, or that
   * found the flag already up when they were first seen.
   */
  lemma {:induction false} PromotionExactly(run: seq<Action>, n: nat, k: nat, id: nat)
    requires n <= k <= |run|
    requires id < StateAt(run, n).nextTask && Completes(StateAt(run, |run|), id)
    ensures StateAt(run, k).promoteToManual == (StateAt(run, n).promoteToManual || PromotedBetween(run, n, k))
    decreases k
  {
    if k > n {
      PromotionExactly(run, n, k - 1, id);
      PromotionAt(run, n, k, id);
      PromotedBetweenNext(run, n, k);
    }
  }

  /** The same, as the record shows it: `n` is any moment at which the round already existed. */
  lemma PromotedOnRecord(run: seq<Action>, n: nat, id: nat, r: Resumption)
    requires n <= |run|
    requires id < StateAt(run, n).nextTask && Completes(StateAt(run, |run|), id)
    ensures var before, after := Steps(FRESH_APP, run), Steps(FRESH_APP, run + [Continue(id, r)]);
      && |after.trace| == |before.trace| + 1 && after.trace[|before.trace|].Completed?
      && var promoted := after.trace[|before.trace|].promoted;
         promoted <==> StateAt(run, n).promoteToManual || PromotedBetween(run, n, |run|)
  {
    assert run[..|run|] == run;
    InvFresh();
    InvSteps(FRESH_APP, run);
    PromotionExactly(run, n, |run|, id);
    StepsSnoc(FRESH_APP, run, Continue(id, r));
    CompletionRecord(Steps(FRESH_APP, run), id, r);
  }

  /**
   * The comment at the start of a round says that it clears a promotion left over from an earlier
   * one.  Only a manual round does: an automatic round inherits a promotion whose own round was
   * hidden away, and then finishes as a manual one although nobody tapped during it.
   */
  lemma StalePromotionIsInherited(s: State, env: Env)
    requires Inv(s) && s.refreshing && s.promoteToManual && s.visibility == Some(s.sessionId)
    requires !env.hidden && !OnlyHeartbeat(Auto, env) && env.online
    ensures var s' := Step(Step(s, HideTab), Call(s.sessionId, Auto, false, env));
      Owner(s', s.nextTask) && s'.tasks[s.nextTask].kind == Auto && s'.promoteToManual
    ensures var s' := Step(Step(s, HideTab), Call(s.sessionId, Manual, false, env));
      Owner(s', s.nextTask) && !s'.promoteToManual
  {}
}
