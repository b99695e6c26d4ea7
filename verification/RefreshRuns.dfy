/** Runs from the first unlock that reach what the refresh protocol does not rule out. */
module RefreshRuns {
  import opened Prelude
  import opened RefreshRounds
  import opened RefreshSafety
  import opened LoopSafety

  const CALM: Reply := Reply(false, false, false, false, false, true)
  const SETTLED: Env := Env(5000, false, 60_000, true, false, false, true, false, CALM)
  const DUE: Env := Env(5000, false, 60_000, false, false, false, true, false, CALM)

  predicate Succeeds(r: Reply) { !r.throws && !r.fatalQuotes }

  /** No hide, no lock, and no reply that makes a pass throw or end empty. */
  predicate Ordinary(a: Action) {
    match a
    case Call(_, _, _, env) => Succeeds(env.reply)
    case Repaint(_, reply) => Succeeds(reply)
    case Fire(env) => Succeeds(env.reply)
    case Tap(env) => Succeeds(env.reply)
    case Continue(_, r) => Succeeds(r.env.reply)
    case UnlockApp(reply) => Succeeds(reply)
    case HideTab => false
    case ShowTab(env) => Succeeds(env.reply)
    case LockApp => false
  }

  ghost predicate AllOrdinary(run: seq<Action>) {
    forall a :: a in run ==> Ordinary(a)
  }

  /** A cache-only paint with its quotes in hand is done in three more stretches. */
  function Painting(id: nat, env: Env): seq<Action> {
    var next := Continue(id, Resumption(env, false, false));
    [next, next, next]
  }

  lemma ThreeMore(s: State, run: seq<Action>, a: Action, b: Action, c: Action)
    ensures Steps(s, run + [a, b, c]) == Step(Step(Step(Steps(s, run), a), b), c)
  {
    StepsSnoc(s, run, a);
    StepsSnoc(s, run + [a], b);
    StepsSnoc(s, run + [a] + [b], c);
    Joined(run, a, b, c);
  }

  lemma Joined<T>(s: seq<T>, a: T, b: T, c: T)
    ensures s + [a] + [b] + [c] == s + [a, b, c]
  {}

  lemma Paints(s: State, id: nat, env: Env)
    requires env.reply == CALM && id in s.tasks && s.tasks[id] == Paint(s.sessionId, At(Quotes), UnlockTail)
    ensures var next := Continue(id, Resumption(env, false, false));
      Step(Step(Step(s, next), next), next)
      == s.(tasks := s.tasks[id := Paint(s.sessionId, Returned(Report), UnlockTail)],
            trace := s.trace + [Rendered(s.sessionId, s.sessionId)])
  {
    var next := Continue(id, Resumption(env, false, false));
    assert s.trace + [] == s.trace;
    var s1 := Step(s, next);
    assert s1 == s.(tasks := s.tasks[id := Paint(s.sessionId, At(OpenFx), UnlockTail)]);
    var s2 := Step(s1, next);
    assert s2 == s.(tasks := s.tasks[id := Paint(s.sessionId, At(History), UnlockTail)]);
  }

  /** The run goes on until the paint of the live unlock `id` has returned. */
  lemma PaintToReport(run: seq<Action>, id: nat, env: Env)
    requires env.reply == CALM && id in Steps(FRESH_APP, run).tasks
    requires Steps(FRESH_APP, run).tasks[id] == Paint(Steps(FRESH_APP, run).sessionId, At(Quotes), UnlockTail)
    ensures var s := Steps(FRESH_APP, run);
      Steps(FRESH_APP, run + Painting(id, env))
      == s.(tasks := s.tasks[id := Paint(s.sessionId, Returned(Report), UnlockTail)],
            trace := s.trace + [Rendered(s.sessionId, s.sessionId)])
  {
    var next := Continue(id, Resumption(env, false, false));
    ThreeMore(FRESH_APP, run, next, next, next);
    Paints(Steps(FRESH_APP, run), id, env);
  }

  /** The first action of the run unlocks, and no other does. */
  ghost predicate OneUnlock(run: seq<Action>) {
    run != [] && forall k :: 0 <= k < |run| ==> (run[k].UnlockApp? <==> k == 0)
  }

  lemma OneUnlockOvertakesNothing(run: seq<Action>)
    requires OneUnlock(run)
    ensures NoneOvertakes(run)
  {
    assert run[..0] == [];
  }

  /** A first unlock whose cached paint finds the book settled: it arms the heartbeat and stops. */
  lemma SettledUnlock() returns (run: seq<Action>)
    ensures AllOrdinary(run) && OneUnlock(run)
    ensures Steps(FRESH_APP, run)
            == FRESH_APP.(sessionId := 1, unlocked := true, refreshTimer := Some(1), visibility := Some(1),
                          nextTask := 1, trace := [Rendered(1, 1)])
  {
    run := [UnlockApp(CALM)];
    assert [] + [UnlockApp(CALM)] == run;
    StepsSnoc(FRESH_APP, [], UnlockApp(CALM));
    PaintToReport(run, 0, SETTLED);
    run := run + Painting(0, SETTLED);
    var last := Continue(0, Resumption(SETTLED, false, false));
    StepsSnoc(FRESH_APP, run, last);
    assert Step(Steps(FRESH_APP, run), last).tasks == map[];
    run := run + [last];
  }

  /** After it the session is unlocked and idle with its loop on and nothing of an older session about. */
  lemma FirstUnlockTurnsLoopOn() returns (run: seq<Action>)
    ensures AllOrdinary(run)
    ensures var s := Steps(FRESH_APP, run); s.unlocked && !s.refreshing && Armed(s) && Clean(s) && Alive(s)
  {
    run := SettledUnlock();
  }

  // ---------------------------------------------------------------- the loop dies

  /** The heartbeat of a settled unlock begins a round, and a second unlock overtakes it. */
  lemma OvertakeRound() returns (run: seq<Action>)
    ensures AllOrdinary(run) && Steps(FRESH_APP, run).refreshing
    ensures Steps(FRESH_APP, run + [UnlockApp(CALM)])
            == State(2, 1, true, Some(Auto), Some(5000), false, 0, None, None, Some(1), true,
                     map[1 := Round(1, 1, Auto, 5000, FxAnchor), 2 := Paint(2, At(Quotes), UnlockTail)], 3,
                     [Rendered(1, 1)])
  {
    run := SettledUnlock();
    var s := Step(Steps(FRESH_APP, run), Fire(DUE));
    assert s.tasks == map[1 := Round(1, 1, Auto, 5000, FxAnchor)];
    StepsSnoc(FRESH_APP, run, Fire(DUE));
    run := run + [Fire(DUE)];
    StepsSnoc(FRESH_APP, run, UnlockApp(CALM));
  }

  /**
   * The loop can die without a hide, a lock or a failure, because an unlock overtook a round: the app
   * is left idle with no tick pending.
   */
  lemma LoopCanDie() returns (run: seq<Action>, k: nat)
    ensures AllOrdinary(run) && LoopIsDead(Steps(FRESH_APP, run))
    ensures k < |run| && run[k].UnlockApp? && StateAt(run, k).refreshing
  {
    var before := OvertakeRound();
    run, k := before + [UnlockApp(CALM)], |before|;
    var rest := PaintAndEnd(run);
    run := run + rest;
    assert run[..k] == before;
  }

  /** From there on the unlock and the round run to their ends. */
  lemma PaintAndEnd(run: seq<Action>) returns (rest: seq<Action>)
    requires Steps(FRESH_APP, run)
             == State(2, 1, true, Some(Auto), Some(5000), false, 0, None, None, Some(1), true,
                      map[1 := Round(1, 1, Auto, 5000, FxAnchor), 2 := Paint(2, At(Quotes), UnlockTail)], 3,
                      [Rendered(1, 1)])
    ensures AllOrdinary(rest) && LoopIsDead(Steps(FRESH_APP, run + rest))
  {
    var paint, round := Continue(2, Resumption(DUE, false, false)), Continue(1, Resumption(DUE, false, false));
    PaintToReport(run, 2, DUE);
    var painted := run + Painting(2, DUE);
    BothOver(Steps(FRESH_APP, painted), paint, round);
    StepsSnoc(FRESH_APP, painted, paint);
    StepsSnoc(FRESH_APP, painted + [paint], round);
    rest := Painting(2, DUE) + [paint] + [round];
    assert run + rest == painted + [paint] + [round];
  }

  lemma BothOver(s: State, paint: Action, round: Action)
    requires s.sessionId == 2 && s.refreshGeneration == 1 && s.unlocked && s.refreshing && s.refreshTimer.None?
    requires s.refreshStartedAt == Some(5000)
    requires s.tasks == map[1 := Round(1, 1, Auto, 5000, FxAnchor), 2 := Paint(2, Returned(Report), UnlockTail)]
    requires paint == Continue(2, Resumption(DUE, false, false)) && round == Continue(1, Resumption(DUE, false, false))
    ensures LoopIsDead(Step(Step(s, paint), round))
  {
    var s1 := Step(s, paint);
    assert s1 == s.(visibility := Some(2), tasks := map[1 := Round(1, 1, Auto, 5000, FxAnchor)]);
    assert Step(s1, round).tasks == map[];
  }

  /** Two unlocks at once, the second of them over first. */
  lemma OvertakeUnlock() returns (run: seq<Action>)
    ensures AllOrdinary(run)
    ensures Steps(FRESH_APP, run)
            == FRESH_APP.(sessionId := 2, unlocked := true, refreshTimer := Some(2), visibility := Some(2),
                          nextTask := 2, tasks := map[0 := Paint(1, At(Quotes), UnlockTail)],
                          trace := [Rendered(2, 2)])
  {
    var last := Continue(1, Resumption(SETTLED, false, false));
    run := TwoUnlocks();
    PaintToReport(run, 1, SETTLED);
    run := run + Painting(1, SETTLED);
    StepsSnoc(FRESH_APP, run, last);
    assert Step(Steps(FRESH_APP, run), last).tasks == map[0 := Paint(1, At(Quotes), UnlockTail)];
    run := run + [last];
  }

  lemma TwoUnlocks() returns (run: seq<Action>)
    ensures AllOrdinary(run)
    ensures Steps(FRESH_APP, run)
            == FRESH_APP.(sessionId := 2, unlocked := true, nextTask := 2,
                          tasks := map[0 := Paint(1, At(Quotes), UnlockTail), 1 := Paint(2, At(Quotes), UnlockTail)])
  {
    var unlock := UnlockApp(CALM);
    StepsSnoc(FRESH_APP, [], unlock);
    StepsSnoc(FRESH_APP, [unlock], unlock);
    assert [] + [unlock] == [unlock];
    run := [unlock] + [unlock];
  }

  /**
   * Nor does it take a round: of two unlocks at once the one of the older session may be over last, and
   * its tick and its listener then replace the live ones.  The app is left idle with no tick pending
   * and deaf to being hidden and shown, although no round was ever begun.
   */
  lemma LoopCanGoDeaf() returns (run: seq<Action>)
    ensures AllOrdinary(run)
    ensures var s := Steps(FRESH_APP, run);
      LoopIsDead(s) && Deaf(s) && s.visibility == Some(1) && s.sessionId == 2 && s.refreshGeneration == 0
  {
    run := OvertakeUnlock();
    var next := Continue(0, Resumption(SETTLED, false, false));
    var s := Steps(FRESH_APP, run);
    assert s.trace + [] == s.trace;
    var s1 := s.(tasks := map[0 := Paint(1, Returned(Nothing), UnlockTail)]);
    assert Step(s, next) == s1;
    OldUnlockDeafens(s1, 0, Resumption(SETTLED, false, false), DUE);
    ThreeMore(FRESH_APP, run, next, next, Fire(DUE));
    run := run + [next, next, Fire(DUE)];
  }

  // ---------------------------------------------------------------- a wake-up too soon

  const SOON: Env := DUE.(now := 7000)

  /** The page is hidden and shown again, which begins a round, and hidden again two seconds later. */
  lemma HideShowHide() returns (run: seq<Action>)
    ensures OneUnlock(run)
    ensures Steps(FRESH_APP, run)
            == State(1, 2, false, None, None, false, 0, Some(5000), None, Some(1), true,
                     map[1 := Round(1, 1, Auto, 5000, FxAnchor)], 2, [Rendered(1, 1)])
  {
    run := SettledUnlock();
    var s1 := Step(Steps(FRESH_APP, run), HideTab);
    var s2 := Step(s1, ShowTab(DUE));
    assert s2.tasks == map[1 := Round(1, 1, Auto, 5000, FxAnchor)] && s2.refreshing;
    assert Step(s2, HideTab) == s2.(refreshGeneration := 2, refreshing := false, refreshingKind := None,
                                    refreshStartedAt := None);
    ThreeMore(FRESH_APP, run, HideTab, ShowTab(DUE), HideTab);
    run := run + [HideTab, ShowTab(DUE), HideTab];
  }

  /**
   * Showing the page does not always bring the loop back, although no unlock overtook anything and the
   * listener is live: shown again within five seconds of the last wake-up, whose round a hide has
   * aborted, the page stays visible and idle with no tick pending.
   */
  lemma ShownTooSoon() returns (run: seq<Action>)
    ensures NoneOvertakes(run) && run != [] && run[|run| - 1] == ShowTab(SOON) && !SOON.hidden
    ensures var s := Steps(FRESH_APP, run); LoopIsDead(s) && s.visibility == Some(s.sessionId)
  {
    run := HideShowHide();
    var s := Steps(FRESH_APP, run);
    var over := Continue(1, Resumption(SOON, false, false));
    var s1 := Step(s, over);
    assert s1.tasks == map[] && s1 == s.(tasks := map[]);
    assert Step(s1, ShowTab(SOON)) == s1;
    StepsSnoc(FRESH_APP, run, over);
    StepsSnoc(FRESH_APP, run + [over], ShowTab(SOON));
    run := run + [over] + [ShowTab(SOON)];
    OneUnlockOvertakesNothing(run);
  }

  // ---------------------------------------------------------------- an inherited promotion

  /** An automatic round hidden away after a tap promoted it, and the round of the wake-up after it. */
  lemma InheritPromotion() returns (run: seq<Action>)
    ensures Steps(FRESH_APP, run)
            == State(1, 3, true, Some(Auto), Some(5000), true, 5000, None, None, Some(1), true,
                     map[1 := Round(1, 1, Auto, 5000, FxAnchor), 2 := Round(1, 3, Auto, 5000, FxAnchor)], 3,
                     [Rendered(1, 1)])
  {
    run := SettledUnlock();
    var s1 := Step(Steps(FRESH_APP, run), Fire(DUE));
    assert s1.tasks == map[1 := Round(1, 1, Auto, 5000, FxAnchor)];
    var tap := Action.Tap(DUE);
    var s3 := Step(Step(s1, tap), HideTab);
    assert s3 == s1.(lastManualAt := 5000, promoteToManual := true, refreshGeneration := 2, refreshing := false,
                     refreshingKind := None, refreshStartedAt := None);
    ThreeMore(FRESH_APP, run, Fire(DUE), tap, HideTab);
    run := run + [Fire(DUE), tap, HideTab];
    StepsSnoc(FRESH_APP, run, Call(1, Auto, false, DUE));
    run := run + [Call(1, Auto, false, DUE)];
  }

  /** A round goes from its last await before pricing to its report in five stretches. */
  lemma RoundToReport(s: State, id: nat, next: Action)
    requires next == Continue(id, Resumption(DUE, false, false)) && s.unlocked && id in s.tasks
    requires s.tasks[id] == Round(s.sessionId, s.refreshGeneration, Auto, 5000, FxAnchor)
    ensures Step(Step(Step(Step(Step(s, next), next), next), next), next)
            == s.(tasks := s.tasks[id := s.tasks[id].(at := Pricing(Returned(Report)))],
                  trace := s.trace + [Rendered(s.sessionId, s.sessionId)])
  {
    var t := s.tasks[id];
    assert s.trace + [] == s.trace;
    var s1 := Step(s, next);
    assert s1 == s.(tasks := s.tasks[id := t.(at := Pricing(At(Quotes)))]);
    var s2 := Step(s1, next);
    assert s2 == s.(tasks := s.tasks[id := t.(at := Pricing(At(Backup)))]);
    var s3 := Step(s2, next);
    assert s3 == s.(tasks := s.tasks[id := t.(at := Pricing(At(OpenFx)))]);
    var s4 := Step(s3, next);
    assert s4 == s.(tasks := s.tasks[id := t.(at := Pricing(At(History)))]);
  }

  /**
   * The inherited promotion is reachable: an automatic round, begun at moment `n` of the run, completes
   * as promoted although no tap promoted it.
   */
  lemma StalePromotionReachable() returns (run: seq<Action>, n: nat)
    ensures n <= |run| && !PromotedBetween(run, n, |run|)
    ensures Owner(StateAt(run, n), 2) && StateAt(run, n).tasks[2].kind == Auto
    ensures var s := Steps(FRESH_APP, run); s.trace != [] && s.trace[|s.trace| - 1] == Completed(1, 3, true)
  {
    var before := InheritPromotion();
    n := |before|;
    var next := Continue(2, Resumption(DUE, false, false));
    run := before + [next, next, next] + [next, next, next];
    PromotedCompletes(before, next);
    assert run[..n] == before;
    forall i | n <= i < |run| ensures !TapPromotes(StateAt(run, i), run[i]) { assert run[i] == next; }
  }

  lemma PromotedCompletes(run: seq<Action>, next: Action)
    requires var s := Steps(FRESH_APP, run);
      && s.sessionId == 1 && s.refreshGeneration == 3 && s.promoteToManual && s.unlocked
      && 2 in s.tasks && s.tasks[2] == Round(1, 3, Auto, 5000, FxAnchor)
    requires next == Continue(2, Resumption(DUE, false, false))
    ensures var s := Steps(FRESH_APP, run + [next, next, next] + [next, next, next]);
      s.trace != [] && s.trace[|s.trace| - 1] == Completed(1, 3, true)
  {
    ThreeMore(FRESH_APP, run, next, next, next);
    ThreeMore(FRESH_APP, run + [next, next, next], next, next, next);
    RoundToReport(Steps(FRESH_APP, run), 2, next);
  }
}
