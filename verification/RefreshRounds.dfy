/**
 * The refresh-round ownership protocol of web/src/app.ts.
 *
 * A round is an asynchronous function: between two awaits it runs to completion, and at each
 * await anything else may run.  `Task` is a suspended function together with the await it is
 * suspended at, and every function below named after a source function is one uninterrupted
 * stretch of it.  `State` is what those stretches share.
 *
 * The class `App` is the source's object, whose methods update its fields; each method is proved
 * to compute the function of the same name.  What the protocol promises is proved about the
 * functions, over all sequences of actions.
 */
module RefreshRounds {
  import opened Prelude

  datatype Kind = Start | Auto | Manual | Reset

  const MANUAL_REFRESH_COOLDOWN_MS: int := 3000
  const MIN_STALE_ROUND_ABORT_MS: int := 90_000
  const DEFAULT_WAKE_COALESCE_MS: int := 5_000

  // ---------------------------------------------------------------- suspended functions

  /** The awaits of `refreshPrices`, in the order in which they are reached. */
  datatype PassPoint = FxRates | EurUsd | PrevClose | Quotes | Backup | SafetyNet | CloseFx | OpenFx | History

  /** How a call of `refreshPrices` ended. */
  datatype PassOutcome = Report | Nothing | Threw

  /** Where a call of `refreshPrices` stands; after it returns, its caller is resumed in a later turn. */
  datatype Pass = At(point: PassPoint) | Returned(outcome: PassOutcome)

  /** The awaits of `runScheduledRefresh`. */
  datatype RoundPoint = Prefetch | BlobMeta | FxAnchor | GraphPrime | SessionFx | Pricing(pass: Pass)

  /** What runs after a cache-only paint: nothing, or the rest of `afterUnlock`. */
  datatype Tail = Discard | UnlockTail

  datatype Task =
    | Round(session: nat, generation: nat, kind: Kind, startedAt: int, at: RoundPoint)
    | Paint(session: nat, pass: Pass, tail: Tail)

  /** What the outside world answers to one stretch of `refreshPrices`. */
  datatype Reply = Reply(throws: bool, fetchFx: bool, prevCloseUnknown: bool, fatalQuotes: bool,
                         netEngaged: bool, marketOpen: bool)

  /**
   * What one stretch reads from its surroundings: `settled` is a book fully up to date, `forced` a
   * deferred queue that holds forced pulls, and `quick` the start-up pull of badly outdated prices.
   */
  datatype Env = Env(now: int, hidden: bool, intervalMs: int, settled: bool, forced: bool, quick: bool,
                     online: bool, prefetching: bool, reply: Reply)

  /** What the resumption of a suspended function reads from its surroundings. */
  datatype Resumption = Resumption(env: Env, graphDue: bool, fxBarsDue: bool)

  // ---------------------------------------------------------------- shared state

  /** What a run leaves on record. */
  datatype Event =
    | Rendered(passSession: nat, liveSession: nat)
    | LoadErrorShown(passSession: nat, liveSession: nat)
    | Completed(session: nat, generation: nat, promoted: bool)

  datatype State = State(
    sessionId: nat, refreshGeneration: nat,
    refreshing: bool, refreshingKind: Option<Kind>, refreshStartedAt: Option<int>,
    promoteToManual: bool, lastManualAt: int, lastWakeAt: Option<int>,
    refreshTimer: Option<nat>,  // the session the pending tick was armed for
    visibility: Option<nat>,    // the session the installed hide listener belongs to
    unlocked: bool,
    tasks: map<nat, Task>, nextTask: nat,
    trace: seq<Event>)

  const FRESH_APP: State :=
    State(0, 0, false, None, None, false, 0, None, None, None, false, map[], 0, [])

  // ---------------------------------------------------------------- pure decisions

  function StaleRoundAbortMs(intervalMs: int): int {
    if intervalMs > 0 then intervalMs else MIN_STALE_ROUND_ABORT_MS
  }

  predicate RoundIsStale(startedAt: Option<int>, now: int, intervalMs: int) {
    startedAt.Some? && now - startedAt.value > 0 && now - startedAt.value >= StaleRoundAbortMs(intervalMs)
  }

  datatype TickAction = Run | Defer | Stop

  function RefreshTickAction(sessionMatches: bool, kind: Kind, hidden: bool, kickoff: bool): TickAction {
    if !sessionMatches then Stop
    else if kind.Auto? && !kickoff && hidden then Defer
    else Run
  }

  datatype TapDecision = RunNow | Promote | Cooldown

  function ManualRefreshDecision(refreshing: bool, inFlight: Option<Kind>, lastManualAt: int, now: int): TapDecision {
    if refreshing && inFlight == Some(Manual) then Cooldown
    else if now - lastManualAt < MANUAL_REFRESH_COOLDOWN_MS then Cooldown
    else if refreshing && inFlight == Some(Auto) then Promote
    else RunNow
  }

  /** A wake-up so soon after another one is left to it. */
  predicate WakeCoalesceActive(lastWakeAt: Option<int>, now: int) {
    lastWakeAt.Some? && 0 <= now - lastWakeAt.value < DEFAULT_WAKE_COALESCE_MS
  }

  /** An entry that only keeps the heartbeat of a book fully up to date. */
  predicate OnlyHeartbeat(kind: Kind, env: Env) {
    (kind.Auto? || kind.Start?) && env.settled && !env.forced
  }

  // ---------------------------------------------------------------- refreshPrices

  datatype PassStep = Suspend(point: PassPoint) | Render | LoadError

  function EnterPricing(unlocked: bool, network: bool, r: Reply): Pass {
    if !unlocked then Returned(Nothing)
    else if network && r.fetchFx then At(FxRates)
    else if r.prevCloseUnknown then At(PrevClose)
    else At(Quotes)
  }

  function AfterProviders(r: Reply): PassStep {
    if r.marketOpen then Suspend(OpenFx) else Suspend(CloseFx)
  }

  /** What one stretch of `refreshPrices` does once its session check has passed. */
  function PassStepFrom(p: PassPoint, network: bool, r: Reply): PassStep {
    match p
    case FxRates => Suspend(EurUsd)
    case EurUsd => if r.prevCloseUnknown then Suspend(PrevClose) else Suspend(Quotes)
    case PrevClose => Suspend(Quotes)
    case Quotes =>
      if network && r.fatalQuotes then LoadError
      else if network then Suspend(Backup)
      else AfterProviders(r)
    case Backup => if r.netEngaged then Suspend(SafetyNet) else AfterProviders(r)
    case SafetyNet => AfterProviders(r)
    case CloseFx => Suspend(OpenFx)
    case OpenFx => Suspend(History)
    case History => Render
  }

  /** One stretch of `refreshPrices`: the new position, and what it put on screen. */
  function PassTurn(p: PassPoint, network: bool, session: nat, liveSession: nat, r: Reply): (Pass, seq<Event>) {
    if r.throws then (Returned(Threw), [])
    else if session != liveSession then (Returned(Nothing), [])
    else
      match PassStepFrom(p, network, r)
      case Suspend(q) => (At(q), [])
      case Render => (Returned(Report), [Rendered(session, liveSession)])
      case LoadError => (Returned(Nothing), [LoadErrorShown(session, liveSession)])
  }

  // ---------------------------------------------------------------- stretches of the protocol

  function Spawn(s: State, t: Task): State {
    s.(tasks := s.tasks[s.nextTask := t], nextTask := s.nextTask + 1)
  }

  function Finish(s: State, id: nat): State {
    s.(tasks := s.tasks - {id})
  }

  function AbortInFlightRound(s: State): State {
    if !s.refreshing then s
    else s.(refreshGeneration := s.refreshGeneration + 1, refreshing := false,
            refreshingKind := None, refreshStartedAt := None)
  }

  function ReleaseIfOwned(s: State, generation: nat): State {
    if generation != s.refreshGeneration then s
    else s.(refreshing := false, refreshingKind := None, refreshStartedAt := None)
  }

  function BeginRound(s: State, session: nat, kind: Kind, kickoff: bool, env: Env): State {
    var at := if kickoff then (if env.prefetching then Prefetch else BlobMeta) else FxAnchor;
    Spawn(s.(refreshing := true, refreshingKind := Some(kind), refreshStartedAt := Some(env.now),
             refreshGeneration := s.refreshGeneration + 1,
             promoteToManual := s.promoteToManual && kind != Manual),
          Round(session, s.refreshGeneration + 1, kind, env.now, at))
  }

  function RunScheduledRefresh(s: State, session: nat, kind: Kind, kickoff: bool, env: Env): State {
    match RefreshTickAction(session == s.sessionId, kind, env.hidden, kickoff)
    case Stop => s
    case Defer => s.(refreshTimer := Some(session))
    case Run =>
      if s.refreshing && !RoundIsStale(s.refreshStartedAt, env.now, env.intervalMs) then s
      else StartTurn(AbortInFlightRound(s), session, kind, kickoff, env)
  }

  /** The rest of the stretch, with no round in flight: idle until the next tick, repaint, or begin a round. */
  function StartTurn(s: State, session: nat, kind: Kind, kickoff: bool, env: Env): State {
    if OnlyHeartbeat(kind, env) then s.(refreshTimer := Some(session))
    else if !env.online then
      Spawn(s, Paint(session, EnterPricing(s.unlocked, false, env.reply), Discard)).(refreshTimer := Some(session))
    else BeginRound(s, session, kind, kickoff, env)
  }

  predicate Superseded(s: State, r: Task) requires r.Round? {
    r.session != s.sessionId || r.generation != s.refreshGeneration
  }

  /** The point after a round's own await `p` at which it is neither superseded nor pricing yet. */
  function RoundPointAfter(unlocked: bool, p: RoundPoint, r: Resumption): RoundPoint
    requires !p.Pricing?
  {
    match p
    case Prefetch => BlobMeta
    case BlobMeta => FxAnchor
    case FxAnchor =>
      if r.graphDue then GraphPrime
      else if r.fxBarsDue then SessionFx
      else Pricing(EnterPricing(unlocked, true, r.env.reply))
    case _ => Pricing(EnterPricing(unlocked, true, r.env.reply))
  }

  /** The end of a round, after its `refreshPrices` has returned. */
  function FinishRound(s: State, id: nat, t: Task, o: PassOutcome): State
    requires t.Round?
  {
    var s1 := Finish(ReleaseIfOwned(s, t.generation), id);
    if o.Threw? then s1
    else if Superseded(s1, t) || o.Nothing? then
      if t.generation == s1.refreshGeneration then s1.(promoteToManual := false) else s1
    else
      s1.(promoteToManual := false, refreshTimer := Some(t.session),
          trace := s1.trace + [Completed(t.session, t.generation, s1.promoteToManual)])
  }

  function ResumeRound(s: State, id: nat, r: Resumption): State
    requires id in s.tasks && s.tasks[id].Round?
  {
    var t := s.tasks[id];
    match t.at
    case Pricing(Returned(o)) => FinishRound(s, id, t, o)
    case Pricing(At(p)) =>
      var (pass, shown) := PassTurn(p, true, t.session, s.sessionId, r.env.reply);
      s.(tasks := s.tasks[id := t.(at := Pricing(pass))], trace := s.trace + shown)
    case _ =>
      if Superseded(s, t) then Finish(ReleaseIfOwned(s, t.generation), id)
      else s.(tasks := s.tasks[id := t.(at := RoundPointAfter(s.unlocked, t.at, r))])
  }

  /** The rest of `afterUnlock`, which does not look at the session again. */
  function FinishUnlock(s: State, session: nat, env: Env): State {
    var s1 := s.(visibility := Some(session));
    if env.settled && !env.quick then s1.(refreshTimer := Some(session))
    else RunScheduledRefresh(s1, session, Start, true, env)
  }

  function ResumePaint(s: State, id: nat, r: Resumption): State
    requires id in s.tasks && s.tasks[id].Paint?
  {
    var t := s.tasks[id];
    match t.pass
    case At(p) =>
      var (pass, shown) := PassTurn(p, false, t.session, s.sessionId, r.env.reply);
      s.(tasks := s.tasks[id := t.(pass := pass)], trace := s.trace + shown)
    case Returned(o) =>
      var s1 := Finish(s, id);
      if t.tail.UnlockTail? && !o.Threw? then FinishUnlock(s1, t.session, r.env) else s1
  }

  function Resume(s: State, id: nat, r: Resumption): State
    requires id in s.tasks
  {
    if s.tasks[id].Round? then ResumeRound(s, id, r) else ResumePaint(s, id, r)
  }

  function FireTimer(s: State, env: Env): State {
    if s.refreshTimer.None? then s
    else RunScheduledRefresh(s.(refreshTimer := None), s.refreshTimer.value, Auto, false, env)
  }

  function ManualRefresh(s: State, env: Env): State {
    match ManualRefreshDecision(s.refreshing, s.refreshingKind, s.lastManualAt, env.now)
    case Cooldown => s
    case Promote => s.(lastManualAt := env.now, promoteToManual := true)
    case RunNow => RunScheduledRefresh(s.(lastManualAt := env.now), s.sessionId, Manual, false, env)
  }

  /** The listener of a page that is shown again, or whose network link returns, and `wakeRefresh`. */
  function Wake(s: State, env: Env): State {
    if s.visibility != Some(s.sessionId) || env.hidden || WakeCoalesceActive(s.lastWakeAt, env.now) then s
    else RunScheduledRefresh(s.(lastWakeAt := Some(env.now)), s.sessionId, Auto, false, env)
  }

  function Hide(s: State): State {
    if s.visibility != Some(s.sessionId) then s
    else AbortInFlightRound(s).(refreshTimer := None)
  }

  function Lock(s: State): State {
    AbortInFlightRound(s).(sessionId := s.sessionId + 1, refreshTimer := None, visibility := None,
                           refreshing := false, refreshingKind := None, promoteToManual := false,
                           unlocked := false)
  }

  /** The first stretch of `afterUnlock`; the caller has just stored the decrypted data. */
  function AfterUnlock(s: State, reply: Reply): State {
    var s1 := s.(sessionId := s.sessionId + 1, unlocked := true);
    Spawn(s1, Paint(s1.sessionId, EnterPricing(true, false, reply), UnlockTail))
  }

  // ---------------------------------------------------------------- the object

  class App {
    var sessionId: nat
    var refreshGeneration: nat
    var refreshing: bool
    var refreshingKind: Option<Kind>
    var refreshStartedAt: Option<int>
    var promoteToManual: bool
    var lastManualAt: int
    var lastWakeAt: Option<int>
    var refreshTimer: Option<nat>
    var visibility: Option<nat>
    var unlocked: bool
    var tasks: map<nat, Task>
    var nextTask: nat
    var trace: seq<Event>

    ghost function Now(): State
      reads this
    {
      State(sessionId, refreshGeneration, refreshing, refreshingKind, refreshStartedAt, promoteToManual,
            lastManualAt, lastWakeAt, refreshTimer, visibility, unlocked, tasks, nextTask, trace)
    }

    constructor ()
      ensures Now() == FRESH_APP
    {
      sessionId, refreshGeneration, refreshing := 0, 0, false;
      refreshingKind, refreshStartedAt, promoteToManual, lastManualAt := None, None, false, 0;
      lastWakeAt, refreshTimer, visibility, unlocked := None, None, None, false;
      tasks, nextTask, trace := map[], 0, [];
    }

    method AbortRound() returns (aborted: bool)
      modifies this
      ensures Now() == AbortInFlightRound(old(Now()))
      ensures aborted == old(refreshing)
    {
      if !refreshing { return false; }
      refreshGeneration := refreshGeneration + 1;
      refreshing := false;
      refreshingKind := None;
      refreshStartedAt := None;
      return true;
    }

    method ReleaseOwned(generation: nat)
      modifies this
      ensures Now() == ReleaseIfOwned(old(Now()), generation)
    {
      if generation != refreshGeneration { return; }
      refreshing := false;
      refreshingKind := None;
      refreshStartedAt := None;
    }

    method SpawnTask(t: Task)
      modifies this
      ensures Now() == Spawn(old(Now()), t)
    {
      tasks := tasks[nextTask := t];
      nextTask := nextTask + 1;
    }

    method ScheduledRefresh(session: nat, kind: Kind, kickoff: bool, env: Env)
      modifies this
      ensures Now() == RunScheduledRefresh(old(Now()), session, kind, kickoff, env)
    {
      var action := RefreshTickAction(session == sessionId, kind, env.hidden, kickoff);
      if action == Stop { return; }
      if action == Defer {
        refreshTimer := Some(session);
        return;
      }
      if refreshing {
        if !RoundIsStale(refreshStartedAt, env.now, env.intervalMs) { return; }
        var _ := AbortRound();
      }
      TakeTurn(session, kind, kickoff, env);
    }

    method TakeTurn(session: nat, kind: Kind, kickoff: bool, env: Env)
      modifies this
      ensures Now() == StartTurn(old(Now()), session, kind, kickoff, env)
    {
      if (kind == Auto || kind == Start) && env.settled && !env.forced {
        refreshTimer := Some(session);
        return;
      }
      if !env.online {
        SpawnTask(Paint(session, EnterPricing(unlocked, false, env.reply), Discard));
        refreshTimer := Some(session);
        return;
      }
      TakeOwnership(session, kind, kickoff, env);
    }

    method TakeOwnership(session: nat, kind: Kind, kickoff: bool, env: Env)
      modifies this
      ensures Now() == BeginRound(old(Now()), session, kind, kickoff, env)
    {
      refreshing := true;
      refreshingKind := Some(kind);
      refreshStartedAt := Some(env.now);
      refreshGeneration := refreshGeneration + 1;
      var myGeneration := refreshGeneration;
      if kind == Manual { promoteToManual := false; }
      var at := FxAnchor;
      if kickoff { at := if env.prefetching then Prefetch else BlobMeta; }
      SpawnTask(Round(session, myGeneration, kind, env.now, at));
    }

    method ResumeTask(id: nat, r: Resumption)
      requires id in tasks
      modifies this
      ensures Now() == Resume(old(Now()), id, r)
    {
      match tasks[id]
      case Round(_, _, _, _, _) => ContinueRound(id, r);
      case Paint(_, _, _) => ContinuePaint(id, r);
    }

    method ContinueRound(id: nat, r: Resumption)
      requires id in tasks && tasks[id].Round?
      modifies this
      ensures Now() == ResumeRound(old(Now()), id, r)
    {
      var t := tasks[id];
      match t.at {
        case Pricing(Returned(o)) =>
          EndRound(id, o);
        case Pricing(At(p)) =>
          var (pass, shown) := PassTurn(p, true, t.session, sessionId, r.env.reply);
          tasks := tasks[id := t.(at := Pricing(pass))];
          trace := trace + shown;
        case _ =>
          if t.session != sessionId || t.generation != refreshGeneration {
            ReleaseOwned(t.generation);
            tasks := tasks - {id};
            return;
          }
          tasks := tasks[id := t.(at := RoundPointAfter(unlocked, t.at, r))];
      }
    }

    method ContinuePaint(id: nat, r: Resumption)
      requires id in tasks && tasks[id].Paint?
      modifies this
      ensures Now() == ResumePaint(old(Now()), id, r)
    {
      var t := tasks[id];
      match t.pass {
        case At(p) =>
          var (pass, shown) := PassTurn(p, false, t.session, sessionId, r.env.reply);
          tasks := tasks[id := t.(pass := pass)];
          trace := trace + shown;
        case Returned(o) =>
          tasks := tasks - {id};
          if t.tail == UnlockTail && o != Threw {
            visibility := Some(t.session);
            if r.env.settled && !r.env.quick {
              refreshTimer := Some(t.session);
            } else {
              ScheduledRefresh(t.session, Start, true, r.env);
            }
          }
      }
    }

    method EndRound(id: nat, o: PassOutcome)
      requires id in tasks && tasks[id].Round?
      modifies this
      ensures Now() == FinishRound(old(Now()), id, old(tasks[id]), o)
    {
      var t := tasks[id];
      ReleaseOwned(t.generation);
      tasks := tasks - {id};
      if o == Threw { return; }
      if t.session != sessionId || t.generation != refreshGeneration || o == Nothing {
        if t.generation == refreshGeneration { promoteToManual := false; }
        return;
      }
      var promoted := promoteToManual;
      promoteToManual := false;
      refreshTimer := Some(t.session);
      trace := trace + [Completed(t.session, t.generation, promoted)];
    }

    method TimerFires(env: Env)
      modifies this
      ensures Now() == FireTimer(old(Now()), env)
    {
      if refreshTimer == None { return; }
      var session := refreshTimer.value;
      refreshTimer := None;
      ScheduledRefresh(session, Auto, false, env);
    }

    method Tap(env: Env)
      modifies this
      ensures Now() == ManualRefresh(old(Now()), env)
    {
      var decision := ManualRefreshDecision(refreshing, refreshingKind, lastManualAt, env.now);
      if decision == Cooldown { return; }
      lastManualAt := env.now;
      if decision == Promote {
        promoteToManual := true;
        return;
      }
      ScheduledRefresh(sessionId, Manual, false, env);
    }

    method Shown(env: Env)
      modifies this
      ensures Now() == Wake(old(Now()), env)
    {
      if visibility != Some(sessionId) { return; }
      if env.hidden { return; }
      if WakeCoalesceActive(lastWakeAt, env.now) { return; }
      lastWakeAt := Some(env.now);
      ScheduledRefresh(sessionId, Auto, false, env);
    }

    method Hidden()
      modifies this
      ensures Now() == Hide(old(Now()))
    {
      if visibility != Some(sessionId) { return; }
      var _ := AbortRound();
      refreshTimer := None;
    }

    method LockSession()
      modifies this
      ensures Now() == Lock(old(Now()))
    {
      var _ := AbortRound();
      sessionId := sessionId + 1;
      refreshTimer := None;
      visibility := None;
      refreshing := false;
      refreshingKind := None;
      promoteToManual := false;
      unlocked := false;
    }

    method Unlocked(reply: Reply)
      modifies this
      ensures Now() == AfterUnlock(old(Now()), reply)
    {
      unlocked := true;
      sessionId := sessionId + 1;
      SpawnTask(Paint(sessionId, EnterPricing(true, false, reply), UnlockTail));
    }
  }
}
