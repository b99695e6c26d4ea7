/**
 * The waiting times of the refresh protocol, with the times written out: how long a round is left alone,
 * how often a tap on Refresh counts, and how a pass moves through its awaits.
 */
module RefreshTimes {
  import opened Prelude
  import opened RefreshRounds
  import opened RefreshSafety

  // ---------------------------------------------------------------- the watchdog

  /** `now` is past `start` by the interval, or by a minute and a half if none is set. */
  predicate WaitedLong(start: int, now: int, intervalMs: int) {
    now > start && now - start >= if intervalMs > 0 then intervalMs else 90_000
  }

  /**
   * With a round in flight, an entry for the live session that is not put off leaves everything as it is
   * exactly until the round has been in flight for one interval.
   */
  lemma {:induction false} WatchdogWaits(s: State, kind: Kind, kickoff: bool, env: Env)
    requires s.refreshing && s.refreshStartedAt.Some? && !(kind.Auto? && !kickoff && env.hidden)
    ensures RunScheduledRefresh(s, s.sessionId, kind, kickoff, env) == s
            <==> !WaitedLong(s.refreshStartedAt.value, env.now, env.intervalMs)
  {
    if WaitedLong(s.refreshStartedAt.value, env.now, env.intervalMs) {
      var s1 := AbortInFlightRound(s);
      assert StartTurn(s1, s.sessionId, kind, kickoff, env).refreshGeneration > s.refreshGeneration;
    }
  }

  /** What an entry reads from its surroundings, for the actions that may lead to one. */
  function EntryOf(a: Action): Option<Env> {
    match a
    case Call(_, _, _, env) => Some(env)
    case Fire(env) => Some(env)
    case Tap(env) => Some(env)
    case ShowTab(env) => Some(env)
    case Continue(_, r) => Some(r.env)
    case _ => None
  }

  /** What may end the ownership of round `id`: a hide, a lock, its own stretch, or an entry after the wait. */
  predicate MayEnd(s: State, a: Action, id: nat, startedAt: int) {
    || a.HideTab? || a.LockApp?
    || (a.Continue? && a.id == id)
    || (EntryOf(a).Some? && WaitedLong(startedAt, EntryOf(a).value.now, EntryOf(a).value.intervalMs))
  }

  /** The round goes on owning the shared state. */
  ghost predicate StillOwns(s: State, id: nat, startedAt: int) {
    Owner(s, id) && s.tasks[id].startedAt == startedAt
  }

  lemma {:induction false} EntryKeepsOwner(s: State, session: nat, kind: Kind, kickoff: bool, env: Env, id: nat,
                                           startedAt: int)
    requires Inv(s) && StillOwns(s, id, startedAt) && !WaitedLong(startedAt, env.now, env.intervalMs)
    ensures StillOwns(RunScheduledRefresh(s, session, kind, kickoff, env), id, startedAt)
  {
    assert s.refreshing && s.refreshStartedAt == Some(startedAt);
    assert !RoundIsStale(s.refreshStartedAt, env.now, env.intervalMs);
    CallCases(s, session, kind, kickoff, env);
    if RefreshTickAction(session == s.sessionId, kind, env.hidden, kickoff).Run? {
      assert RunScheduledRefresh(s, session, kind, kickoff, env) == s;
    }
  }

  lemma {:induction false} OtherKeepsOwner(s: State, k: nat, r: Resumption, id: nat, startedAt: int)
    requires Inv(s) && StillOwns(s, id, startedAt) && k in s.tasks && k != id
    requires !WaitedLong(startedAt, r.env.now, r.env.intervalMs)
    ensures StillOwns(Resume(s, k, r), id, startedAt)
  {
    if s.tasks[k].Round? {
      OtherRoundKeepsOwner(s, k, r, id, startedAt);
    } else if s.tasks[k].pass.Returned? {
      var s1 := Finish(s, k).(visibility := Some(s.tasks[k].session));
      InvReleaseAndFinish(s, k);
      InvFlagsOnly(Finish(s, k), s1);
      EntryKeepsOwner(s1, s.tasks[k].session, Start, true, r.env, id, startedAt);
    }
  }

  lemma {:induction false} OtherRoundKeepsOwner(s: State, k: nat, r: Resumption, id: nat, startedAt: int)
    requires Inv(s) && StillOwns(s, id, startedAt) && k in s.tasks && k != id && s.tasks[k].Round?
    ensures StillOwns(ResumeRound(s, k, r), id, startedAt)
  {
    var t := s.tasks[k];
    assert t.generation != s.refreshGeneration;
    if t.at.Pricing? && t.at.pass.Returned? { FinishRoundTasks(s, k, t, t.at.pass.outcome); }
  }

  lemma {:induction false} OwnerIsLeftAlone(s: State, a: Action, id: nat, startedAt: int)
    requires Inv(s) && StillOwns(s, id, startedAt) && !MayEnd(s, a, id, startedAt)
    ensures StillOwns(Step(s, a), id, startedAt)
  {
    match a {
      case Call(session, kind, kickoff, env) => EntryKeepsOwner(s, session, kind, kickoff, env, id, startedAt);
      case Fire(env) =>
        if s.refreshTimer.Some? {
          InvFlagsOnly(s, s.(refreshTimer := None));
          EntryKeepsOwner(s.(refreshTimer := None), s.refreshTimer.value, Auto, false, env, id, startedAt);
        }
      case Tap(env) =>
        InvFlagsOnly(s, s.(lastManualAt := env.now));
        EntryKeepsOwner(s.(lastManualAt := env.now), s.sessionId, Manual, false, env, id, startedAt);
      case ShowTab(env) =>
        InvFlagsOnly(s, s.(lastWakeAt := Some(env.now)));
        EntryKeepsOwner(s.(lastWakeAt := Some(env.now)), s.sessionId, Auto, false, env, id, startedAt);
      case Continue(k, r) => if k in s.tasks { OtherKeepsOwner(s, k, r, id, startedAt); }
      case _ =>
    }
  }

  /**
   * In every run, a round that owned the shared state at moment `n` still owns it at moment `k`, unless
   * in between a hide, a lock or a stretch of its own came, or an entry after it had been in flight for
   * one interval.  No entry takes over a younger round.
   */
  lemma {:induction false} TakenOverOnlyWhenOld(run: seq<Action>, n: nat, k: nat, id: nat, startedAt: int)
    requires n <= k <= |run| && StillOwns(StateAt(run, n), id, startedAt)
    ensures StillOwns(StateAt(run, k), id, startedAt)
            || exists i :: n <= i < k && MayEnd(StateAt(run, i), run[i], id, startedAt)
    decreases k
  {
    if k > n {
      TakenOverOnlyWhenOld(run, n, k - 1, id, startedAt);
      NextState(run, k);
      if StillOwns(StateAt(run, k - 1), id, startedAt) && !MayEnd(StateAt(run, k - 1), run[k - 1], id, startedAt) {
        OwnerIsLeftAlone(StateAt(run, k - 1), run[k - 1], id, startedAt);
      }
    }
  }

  // ---------------------------------------------------------------- taps

  /**
   * A tap does nothing at all exactly during a manual round and in the three seconds after the last tap
   * that counted; it promotes exactly otherwise, during an automatic round.
   */
  lemma {:induction false} TapCounts(s: State, env: Env)
    ensures ManualRefresh(s, env) == s
            <==> (s.refreshing && s.refreshingKind == Some(Manual)) || env.now < s.lastManualAt + 3_000
    ensures TapPromotes(s, Action.Tap(env))
            <==> s.refreshing && s.refreshingKind == Some(Auto) && env.now >= s.lastManualAt + 3_000
  {
    TapStamps(s, env);
  }

  lemma {:induction false} TapStamps(s: State, env: Env)
    ensures var s' := ManualRefresh(s, env);
      s' != s ==> s'.lastManualAt == env.now && env.now >= s.lastManualAt + 3_000
    ensures !ManualRefreshDecision(s.refreshing, s.refreshingKind, s.lastManualAt, env.now).Cooldown?
            ==> ManualRefresh(s, env).lastManualAt == env.now
  {
    EntryKeepsStamp(s.(lastManualAt := env.now), s.sessionId, Manual, false, env);
  }

  lemma {:induction false} EntryKeepsStamp(s: State, session: nat, kind: Kind, kickoff: bool, env: Env)
    ensures RunScheduledRefresh(s, session, kind, kickoff, env).lastManualAt == s.lastManualAt
  {}

  // ---------------------------------------------------------------- entries and wake-ups

  /** A wake-up does nothing exactly without the live listener, on a hidden page, or within five seconds of the last. */
  lemma {:induction false} WakeCounts(s: State, env: Env)
    ensures Wake(s, env) == s
            <==> || s.visibility != Some(s.sessionId) || env.hidden
                 || (s.lastWakeAt.Some? && s.lastWakeAt.value <= env.now < s.lastWakeAt.value + 5_000)
    ensures Wake(s, env) != s ==> Wake(s, env).lastWakeAt == Some(env.now)
  {
    EntryKeepsWake(s.(lastWakeAt := Some(env.now)), s.sessionId, Auto, false, env);
  }

  lemma {:induction false} EntryKeepsWake(s: State, session: nat, kind: Kind, kickoff: bool, env: Env)
    ensures RunScheduledRefresh(s, session, kind, kickoff, env).lastWakeAt == s.lastWakeAt
  {}

  /** An entry is ignored for a session that is over, and only re-arms for an automatic one on a hidden page. */
  lemma {:induction false} EntryIsPutOff(s: State, session: nat, kind: Kind, kickoff: bool, env: Env)
    ensures session != s.sessionId ==> RunScheduledRefresh(s, session, kind, kickoff, env) == s
    ensures session == s.sessionId && kind == Auto && !kickoff && env.hidden ==>
              RunScheduledRefresh(s, session, kind, kickoff, env) == s.(refreshTimer := Some(session))
  {}

  /**
   * What any other entry comes to with no round in flight: only a tick, for an automatic or start-up one
   * on a settled book without forced pulls; offline, a cache-only paint and a tick; and otherwise a round
   * of its own kind, begun now, which drops an earlier promotion exactly if it is a manual one.
   */
  lemma {:induction false} EntryComesTo(s: State, kind: Kind, kickoff: bool, env: Env)
    requires !s.refreshing && !(kind == Auto && !kickoff && env.hidden)
    ensures var s', heartbeat := RunScheduledRefresh(s, s.sessionId, kind, kickoff, env),
                                 (kind == Auto || kind == Start) && env.settled && !env.forced;
      && (heartbeat ==> s' == s.(refreshTimer := Some(s.sessionId)))
      && (!heartbeat && !env.online ==>
            && !s'.refreshing && s'.refreshTimer == Some(s.sessionId) && s'.refreshGeneration == s.refreshGeneration
            && s.nextTask in s'.tasks && s'.tasks[s.nextTask].Paint? && s'.tasks[s.nextTask].tail == Discard)
      && (!heartbeat && env.online ==>
            && s'.refreshing && s'.refreshingKind == Some(kind) && s'.refreshStartedAt == Some(env.now)
            && s'.refreshTimer == s.refreshTimer && s'.refreshGeneration == s.refreshGeneration + 1
            && (s'.promoteToManual <==> s.promoteToManual && kind != Manual)
            && s.nextTask in s'.tasks && s'.tasks[s.nextTask].Round?
            && s'.tasks[s.nextTask].at ==
                 (if !kickoff then FxAnchor else if env.prefetching then Prefetch else BlobMeta))
  {}

  /** A round on its way to its pricing waits where it has to: for the graphs only when due, and then once. */
  lemma {:induction false} RoundMovesOn(unlocked: bool, p: RoundPoint, r: Resumption)
    requires !p.Pricing?
    ensures var next := RoundPointAfter(unlocked, p, r);
      && (next == BlobMeta <==> p == Prefetch) && (next == FxAnchor <==> p == BlobMeta) && next != Prefetch
      && (next == GraphPrime <==> p == FxAnchor && r.graphDue)
      && (next == SessionFx <==> p == FxAnchor && !r.graphDue && r.fxBarsDue)
      && (next.Pricing? <==> p == GraphPrime || p == SessionFx || (p == FxAnchor && !r.graphDue && !r.fxBarsDue))
  {}

  // ---------------------------------------------------------------- a pass and its awaits

  /** The place of an await in the order in which a pass reaches them. */
  function Rank(p: PassPoint): nat {
    match p
    case FxRates => 0
    case EurUsd => 1
    case PrevClose => 2
    case Quotes => 3
    case Backup => 4
    case SafetyNet => 5
    case CloseFx => 6
    case OpenFx => 7
    case History => 8
  }

  /** An await that a pass makes on every way to its paint, whatever the answers. */
  predicate Unavoidable(p: PassPoint, network: bool) {
    p.Quotes? || (p.Backup? && network) || p.OpenFx? || p.History?
  }

  /**
   * A pass only moves on, never past an await that it cannot skip, and paints exactly at its end.  Its
   * other awaits are made exactly when called for: the euro rate after the rates, the previous close when
   * it is unknown, the safety net when it is engaged, the closing rates on a closed market.
   */
  lemma {:induction false} PassMovesOn(p: PassPoint, network: bool, r: Reply, skipped: PassPoint)
    ensures var step := PassStepFrom(p, network, r);
      && (step.Render? <==> p.History?)
      && (step.LoadError? <==> p.Quotes? && network && r.fatalQuotes)
      && (step.Suspend? ==> Rank(step.point) > Rank(p))
      && (step.Suspend? && Rank(p) < Rank(skipped) < Rank(step.point) ==> !Unavoidable(skipped, network))
      && (step == Suspend(EurUsd) <==> p.FxRates?)
      && (step == Suspend(PrevClose) <==> p.EurUsd? && r.prevCloseUnknown)
      && (step == Suspend(SafetyNet) <==> p.Backup? && r.netEngaged)
      && (step == Suspend(CloseFx) <==>
            && !r.marketOpen
            && (p.SafetyNet? || (p.Backup? && !r.netEngaged) || (p.Quotes? && !network)))
  {}

  /** Where a pass begins: at its first await that it needs, and nowhere without decrypted data. */
  lemma {:induction false} PassBegins(unlocked: bool, network: bool, r: Reply)
    ensures var pass := EnterPricing(unlocked, network, r);
      && (pass.Returned? <==> !unlocked) && (pass.Returned? ==> pass.outcome.Nothing?)
      && (pass == At(FxRates) <==> unlocked && network && r.fetchFx)
      && (pass == At(PrevClose) <==> unlocked && !(network && r.fetchFx) && r.prevCloseUnknown)
      && (pass == At(Quotes) <==> unlocked && !(network && r.fetchFx) && !r.prevCloseUnknown)
  {}

  /** A stretch of a pass ends it empty exactly without an exception, for a session that is over or a load error. */
  lemma {:induction false} PassEnds(p: PassPoint, network: bool, session: nat, liveSession: nat, r: Reply)
    ensures var (pass, shown) := PassTurn(p, network, session, liveSession, r);
      && (pass == Returned(Threw) <==> r.throws)
      && (pass == Returned(Nothing) <==>
            !r.throws && (session != liveSession || (p.Quotes? && network && r.fatalQuotes)))
      && (pass == Returned(Report) <==> !r.throws && session == liveSession && p.History?)
      && (shown == [] <==>
            r.throws || session != liveSession || !(p.History? || (p.Quotes? && network && r.fatalQuotes)))
  {}

  // ---------------------------------------------------------------- ends of rounds, unlocks

  /**
   * The end of a round: with a report for the live session it drops the promotion and arms the next
   * tick, with none it only drops the promotion, in both cases if its generation is still current; after
   * an exception, or superseded by a newer generation, it touches neither.
   */
  lemma {:induction false} RoundEnds(s: State, id: nat, t: Task, o: PassOutcome)
    requires t.Round?
    ensures var s', current := FinishRound(s, id, t, o), t.generation == s.refreshGeneration;
      && (s'.promoteToManual <==> s.promoteToManual && (o == Threw || !current))
      && s'.refreshTimer ==
           (if o == Report && current && t.session == s.sessionId then Some(t.session) else s.refreshTimer)
      && (s'.refreshing <==> s.refreshing && !current) && s'.visibility == s.visibility && id !in s'.tasks
  {}

  /** An unlock begins a new session and its cache-only paint, and takes over whatever is armed or in flight. */
  lemma {:induction false} UnlockBegins(s: State, reply: Reply)
    ensures var s' := AfterUnlock(s, reply);
      && s'.sessionId == s.sessionId + 1 && s'.unlocked
      && s'.refreshing == s.refreshing && s'.refreshGeneration == s.refreshGeneration
      && s'.refreshTimer == s.refreshTimer && s'.visibility == s.visibility && s'.promoteToManual == s.promoteToManual
      && s.nextTask in s'.tasks
      && s'.tasks[s.nextTask] ==
           Paint(s'.sessionId, At(if reply.prevCloseUnknown then PrevClose else Quotes), UnlockTail)
  {}

  /** The end of an unlock installs the listener of its own session, whichever is live, unless its paint threw. */
  lemma {:induction false} UnlockInstalls(s: State, id: nat, r: Resumption)
    requires id in s.tasks && s.tasks[id].Paint? && s.tasks[id].pass.Returned?
    ensures Resume(s, id, r).visibility ==
            if s.tasks[id].tail == UnlockTail && s.tasks[id].pass.outcome != Threw
            then Some(s.tasks[id].session) else s.visibility
  {
    var s1 := Finish(s, id).(visibility := Some(s.tasks[id].session));
    EntryKeepsListener(s1, s.tasks[id].session, Start, true, r.env);
  }

  lemma {:induction false} EntryKeepsListener(s: State, session: nat, kind: Kind, kickoff: bool, env: Env)
    ensures RunScheduledRefresh(s, session, kind, kickoff, env).visibility == s.visibility
  {}
}
