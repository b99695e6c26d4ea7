/** Locking ends a session for good, whatever was in flight when it happened. */
module LockSafety {
  import opened Prelude
  import opened RefreshRounds
  import opened RefreshSafety

  /**
   * What can still happen to a locked page: suspended functions resume, timers fire, and listeners
   * and calls left over from sessions before session `n` act.  Only a tap on Refresh or an unlock,
   * neither of which the lock screen's leftovers can cause, is excluded.
   */
  predicate Leftover(a: Action, n: nat) {
    match a
    case Call(session, _, _, _) => session < n
    case Repaint(session, _) => session < n
    case Tap(_) => false
    case UnlockApp(_) => false
    case _ => true
  }

  /** Idle and locked, with everything that is suspended or armed belonging to sessions before `n`. */
  ghost predicate Quiet(s: State, n: nat) {
    && n <= s.sessionId && !s.unlocked
    && !s.refreshing && s.refreshingKind.None? && !s.promoteToManual
    && (forall id :: id in s.tasks ==> s.tasks[id].session < n)
    && (s.refreshTimer.Some? ==> s.refreshTimer.value < n)
    && (s.visibility.Some? ==> s.visibility.value < n)
  }

  lemma LockIsQuiet(s: State)
    requires Inv(s)
    ensures Quiet(Lock(s), s.sessionId + 1) && Lock(s).trace == s.trace
    ensures Lock(s).refreshTimer.None? && Lock(s).visibility.None?
  {}

  lemma OldCallStops(s: State, n: nat, session: nat, kind: Kind, kickoff: bool, env: Env)
    requires Quiet(s, n) && session < n
    ensures RunScheduledRefresh(s, session, kind, kickoff, env) == s
  {}

  lemma QuietRound(s: State, n: nat, id: nat, r: Resumption)
    requires Quiet(s, n) && id in s.tasks && s.tasks[id].Round?
    ensures Quiet(ResumeRound(s, id, r), n) && ResumeRound(s, id, r).trace == s.trace
  {
    var t := s.tasks[id];
    assert Superseded(s, t);
  }

  lemma QuietPaint(s: State, n: nat, id: nat, r: Resumption)
    requires Quiet(s, n) && id in s.tasks && s.tasks[id].Paint?
    ensures Quiet(ResumePaint(s, id, r), n) && ResumePaint(s, id, r).trace == s.trace
  {
    var t := s.tasks[id];
    if t.pass.Returned? {
      var s1 := Finish(s, id).(visibility := Some(t.session));
      assert Quiet(s1, n);
      OldCallStops(s1, n, t.session, Start, true, r.env);
    }
  }

  lemma QuietStep(s: State, n: nat, a: Action)
    requires Quiet(s, n) && Leftover(a, n)
    ensures Quiet(Step(s, a), n) && Step(s, a).trace == s.trace
  {
    match a {
      case Call(session, kind, kickoff, env) => OldCallStops(s, n, session, kind, kickoff, env);
      case Fire(env) =>
        if s.refreshTimer.Some? {
          OldCallStops(s.(refreshTimer := None), n, s.refreshTimer.value, Auto, false, env);
        }
      case Continue(id, r) =>
        if id in s.tasks {
          if s.tasks[id].Round? { QuietRound(s, n, id, r); } else { QuietPaint(s, n, id, r); }
        }
      case _ =>
    }
  }

  lemma {:induction false} QuietSteps(s: State, n: nat, run: seq<Action>)
    requires Quiet(s, n) && forall a :: a in run ==> Leftover(a, n)
    ensures Quiet(Steps(s, run), n) && Steps(s, run).trace == s.trace
  {
    if run != [] {
      QuietSteps(s, n, run[..|run| - 1]);
      QuietStep(Steps(s, run[..|run| - 1]), n, run[|run| - 1]);
    }
  }

  /**
   * After any run, a lock leaves the page silent: however the functions then suspended, the timers
   * and the listeners of earlier sessions act, no round begins, no flag or promotion is raised, and
   * nothing is rendered or recorded until the next unlock or tap.
   */
  lemma LockSilences(before: seq<Action>, after: seq<Action>)
    requires var n := Steps(FRESH_APP, before).sessionId + 1; forall a :: a in after ==> Leftover(a, n)
    ensures var s := Steps(FRESH_APP, before);
      var s' := Steps(Step(s, LockApp), after);
      Quiet(s', s.sessionId + 1) && s'.trace == s.trace
  {
    InvFresh();
    InvSteps(FRESH_APP, before);
    SilentFrom(Steps(FRESH_APP, before), after);
  }

  lemma SilentFrom(s: State, after: seq<Action>)
    requires Inv(s) && forall a :: a in after ==> Leftover(a, s.sessionId + 1)
    ensures Quiet(Steps(Step(s, LockApp), after), s.sessionId + 1)
    ensures Steps(Step(s, LockApp), after).trace == s.trace
  {
    LockIsQuiet(s);
    QuietSteps(Lock(s), s.sessionId + 1, after);
  }
}
