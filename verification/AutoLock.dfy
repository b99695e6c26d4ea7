/**
 * The idle auto-lock: the decision of web/src/auto-lock.ts and its driver in web/src/app.ts.
 *
 * The clock never runs backwards.  While the app is visible its timers fire on time; while it is
 * hidden they may be frozen, or fire late.  Showing the app runs the return handler before any input.
 */
module AutoLock {
  import opened Prelude

  const AUTO_LOCK_WARN_LEAD_MS: int := 15_000
  const AUTO_LOCK_RESET_THROTTLE_MS: int := 1000

  datatype ReturnDecision = ReturnDecision(lock: bool, remainingMs: int)

  function AutoLockReturnDecision(now: int, lastActivityAt: int, timeoutMs: int): ReturnDecision {
    if timeoutMs <= 0 then ReturnDecision(false, 0)
    else
      var elapsed := if now > lastActivityAt then now - lastActivityAt else 0;
      if elapsed >= timeoutMs then ReturnDecision(true, 0) else ReturnDecision(false, timeoutMs - elapsed)
  }

  datatype EventType = Click | Change | KeyDown | Other

  predicate IsDeliberateActivity(event: EventType, onControl: bool) {
    event.KeyDown? || ((event.Click? || event.Change?) && onControl)
  }

  /** An idle lock: when it fired, and when the user last did something deliberate. */
  datatype IdleLock = IdleLock(at: int, lastInteraction: int, timeoutMs: int, wasHidden: bool)

  datatype State = State(now: int, hidden: bool, unlocked: bool, timeoutMs: int, armedAt: int,
                         lockDue: Option<int>, warnDue: Option<int>, warning: bool,
                         lastInteraction: int, idleLocks: seq<IdleLock>)

  function Fresh(now: int, hidden: bool): State {
    State(now, hidden, false, 0, now, None, None, false, now, [])
  }

  function Min(a: int, b: int): int { if a <= b then a else b }

  function WarnLead(timeoutMs: int, remaining: int): int {
    Min(Min(AUTO_LOCK_WARN_LEAD_MS, timeoutMs / 2), remaining)
  }

  function ScheduleTimers(s: State, remainingMs: int): State {
    if s.timeoutMs <= 0 then s.(lockDue := None, warnDue := None)
    else
      var remaining := if remainingMs > 0 then remainingMs else 0;
      s.(lockDue := Some(s.now + remaining), warnDue := Some(s.now + remaining - WarnLead(s.timeoutMs, remaining)))
  }

  function ArmTimers(s: State): State {
    ScheduleTimers(s.(armedAt := s.now), s.timeoutMs)
  }

  function Locked(s: State): State {
    s.(unlocked := false, lockDue := None, warnDue := None, warning := false)
  }

  function LockedIdle(s: State, at: int): State {
    Locked(s).(idleLocks := s.idleLocks + [IdleLock(at, s.lastInteraction, s.timeoutMs, s.hidden)])
  }

  /** `installAutoLock`: arming counts as activity. */
  function Install(s: State, minutes: int): State {
    var s1 := s.(lockDue := None, warnDue := None, warning := false);
    if minutes <= 0 then s1.(timeoutMs := 0)
    else ArmTimers(s1.(timeoutMs := minutes * 60_000, lastInteraction := s.now))
  }

  /** The activity listener. */
  function Activity(s: State, event: EventType, onControl: bool): State {
    if !s.unlocked || !IsDeliberateActivity(event, onControl) then s
    else
      var s1 := s.(lastInteraction := s.now);
      if s.timeoutMs <= 0 then s1
      else if !s.warning && s.now - s.armedAt < AUTO_LOCK_RESET_THROTTLE_MS then s1
      else ArmTimers(s1.(warning := false))
  }

  /** "Stay unlocked" on the warning. */
  function Stay(s: State): State {
    if !s.unlocked || !s.warning then s else ArmTimers(s.(warning := false, lastInteraction := s.now))
  }

  /** "Dismiss" on the warning; the same click then reaches the activity listener. */
  function Dismiss(s: State): State {
    if !s.warning then s else Activity(s.(warning := false), Click, true)
  }

  /** The return handler. */
  function CheckOnReturn(s: State): State {
    if !s.unlocked || s.timeoutMs <= 0 || s.hidden then s
    else
      var d := AutoLockReturnDecision(s.now, s.armedAt, s.timeoutMs);
      if d.lock then LockedIdle(s, s.now) else ScheduleTimers(s.(warning := false), d.remainingMs)
  }

  /** Both timers as they stand at time `t`: the warning appears if due, and the lock if due. */
  function FireTimers(s: State, t: int): State {
    var s1 := if s.warnDue.Some? && s.warnDue.value <= t
              then s.(warnDue := None, warning := s.unlocked) else s;
    if s.lockDue.Some? && s.lockDue.value <= t then
      if s.unlocked then LockedIdle(s1, if s.lockDue.value > s.now then s.lockDue.value else s.now)
      else s1.(lockDue := None)
    else s1
  }

  /** Time passes: on screen timers fire on time, off screen they are frozen. */
  function Elapse(s: State, t: int): State {
    if t < s.now then s
    else if s.hidden then s.(now := t)
    else FireTimers(s, t).(now := t)
  }

  /** What can happen; from an unlock to the installation that follows it no listener or timer is in place. */
  datatype Action =
    | Unlock
    | SetTimeout(minutes: int)
    | Pass(t: int)
    | LateTimers
    | HideApp
    | ShowApp
    | Focus
    | Input(event: EventType, onControl: bool)
    | StayUnlocked
    | DismissWarning
    | ManualLock

  function Step(s: State, a: Action): State {
    match a
    case Unlock => if s.unlocked then s else s.(unlocked := true, timeoutMs := 0, lastInteraction := s.now)
    case SetTimeout(minutes) => if s.unlocked then Install(s, minutes) else s
    case Pass(t) => Elapse(s, t)
    case LateTimers => if s.hidden then FireTimers(s, s.now) else s
    case HideApp => s.(hidden := true)
    case ShowApp => CheckOnReturn(s.(hidden := false))
    case Focus => CheckOnReturn(s)
    case Input(event, onControl) => if s.hidden then s else Activity(s, event, onControl)
    case StayUnlocked => if s.hidden then s else Stay(s)
    case DismissWarning => if s.hidden then s else Dismiss(s)
    case ManualLock => Locked(s)
  }

  function Steps(s: State, run: seq<Action>): State {
    if run == [] then s else Step(Steps(s, run[..|run| - 1]), run[|run| - 1])
  }

  // ---------------------------------------------------------------- the object

  class Driver {
    var now: int
    var hidden: bool
    var unlocked: bool
    var timeoutMs: int
    var armedAt: int
    var lockDue: Option<int>
    var warnDue: Option<int>
    var warning: bool
    ghost var lastInteraction: int
    ghost var idleLocks: seq<IdleLock>

    ghost function View(): State
      reads this
    {
      State(now, hidden, unlocked, timeoutMs, armedAt, lockDue, warnDue, warning, lastInteraction, idleLocks)
    }

    constructor (at: int, hiddenNow: bool)
      ensures View() == Fresh(at, hiddenNow)
    {
      now, hidden, unlocked, timeoutMs, armedAt := at, hiddenNow, false, 0, at;
      lockDue, warnDue, warning := None, None, false;
      lastInteraction, idleLocks := at, [];
    }

    method ScheduleAutoLockTimers(remainingMs: int)
      modifies this
      ensures View() == ScheduleTimers(old(View()), remainingMs)
    {
      lockDue, warnDue := None, None;
      if timeoutMs <= 0 { return; }
      var remaining := if remainingMs > 0 then remainingMs else 0;
      var lead := Min(Min(AUTO_LOCK_WARN_LEAD_MS, timeoutMs / 2), remaining);
      warnDue := Some(now + remaining - lead);
      lockDue := Some(now + remaining);
    }

    method ArmAutoLockTimers()
      modifies this
      ensures View() == ArmTimers(old(View()))
    {
      armedAt := now;
      ScheduleAutoLockTimers(timeoutMs);
    }

    method InstallAutoLock(minutes: int)
      modifies this
      ensures View() == Install(old(View()), minutes)
    {
      lockDue, warnDue, warning := None, None, false;
      if minutes <= 0 {
        timeoutMs := 0;
        return;
      }
      timeoutMs := minutes * 60_000;
      lastInteraction := now;
      ArmAutoLockTimers();
    }

    method OnActivity(event: EventType, onControl: bool)
      modifies this
      ensures timeoutMs == old(timeoutMs) && View() == Activity(old(View()), event, onControl)
    {
      if !unlocked { return; }
      if !IsDeliberateActivity(event, onControl) { return; }
      lastInteraction := now;
      if timeoutMs <= 0 { return; }
      if !warning && now - armedAt < AUTO_LOCK_RESET_THROTTLE_MS { return; }
      warning := false;
      ArmAutoLockTimers();
    }

    method Lock(ghost idle: bool)
      modifies this
      ensures View() == if idle then LockedIdle(old(View()), old(now)) else Locked(old(View()))
    {
      if idle { idleLocks := idleLocks + [IdleLock(now, lastInteraction, timeoutMs, hidden)]; }
      unlocked := false;
      lockDue, warnDue, warning := None, None, false;
    }

    method CheckAutoLockOnReturn()
      modifies this
      ensures View() == CheckOnReturn(old(View()))
    {
      if !unlocked { return; }
      if timeoutMs <= 0 { return; }
      if hidden { return; }
      var decision := AutoLockReturnDecision(now, armedAt, timeoutMs);
      if decision.lock {
        Lock(true);
        return;
      }
      warning := false;
      ScheduleAutoLockTimers(decision.remainingMs);
    }
  }

  // ---------------------------------------------------------------- the invariant

  ghost predicate Inv(s: State) {
    && s.armedAt <= s.now && s.lastInteraction <= s.now
    && (s.unlocked && s.timeoutMs > 0 ==>
          && s.lockDue == Some(s.armedAt + s.timeoutMs)
          && s.armedAt <= s.lastInteraction < s.armedAt + AUTO_LOCK_RESET_THROTTLE_MS
          && s.timeoutMs >= 60_000
          && (!s.hidden ==> s.now < s.armedAt + s.timeoutMs)
          && (s.warnDue.Some? ==>
                var lead := s.lockDue.value - s.warnDue.value;
                0 <= lead <= AUTO_LOCK_WARN_LEAD_MS && 2 * lead <= s.timeoutMs))
    && (!s.unlocked || s.timeoutMs <= 0 ==> s.lockDue.None? && s.warnDue.None? && !s.warning)
    && (s.timeoutMs != 0 ==> s.timeoutMs >= 60_000)
    && (forall i :: 0 <= i < |s.idleLocks| ==> Fair(s.idleLocks[i]))
  }

  /** An idle lock that did not come too early. */
  predicate Fair(l: IdleLock) {
    l.at > l.lastInteraction + l.timeoutMs - AUTO_LOCK_RESET_THROTTLE_MS
  }

  lemma InvScheduled(s: State, remaining: int)
    requires s.unlocked && s.timeoutMs >= 60_000 && 0 < remaining && s.now + remaining == s.armedAt + s.timeoutMs
    requires s.armedAt <= s.now && s.lastInteraction <= s.now
    requires s.armedAt <= s.lastInteraction < s.armedAt + AUTO_LOCK_RESET_THROTTLE_MS
    requires forall i :: 0 <= i < |s.idleLocks| ==> Fair(s.idleLocks[i])
    ensures Inv(ScheduleTimers(s, remaining))
  {}

  lemma InvFire(s: State, t: int)
    requires Inv(s) && s.now <= t
    ensures Inv(FireTimers(s, t).(now := t))
  {
    if s.lockDue.Some? && s.lockDue.value <= t {
      var at := if s.lockDue.value > s.now then s.lockDue.value else s.now;
      assert Fair(IdleLock(at, s.lastInteraction, s.timeoutMs, s.hidden));
    }
  }

  lemma InvStep(s: State, a: Action)
    requires Inv(s)
    ensures Inv(Step(s, a))
  {
    match a {
      case SetTimeout(minutes) =>
        if s.unlocked && minutes > 0 {
          InvScheduled(s.(lockDue := None, warnDue := None, warning := false, timeoutMs := minutes * 60_000,
                          lastInteraction := s.now, armedAt := s.now), minutes * 60_000);
        }
      case Pass(t) => if s.now <= t && !s.hidden { InvFire(s, t); }
      case LateTimers => InvFire(s, s.now);
      case ShowApp => InvReturn(s.(hidden := false));
      case Focus => if !s.hidden { InvReturn(s); }
      case Input(event, onControl) =>
        if !s.hidden && s.unlocked && s.timeoutMs > 0 {
          InvScheduled(s.(lastInteraction := s.now, warning := false, armedAt := s.now), s.timeoutMs);
        }
      case DismissWarning =>
        if !s.hidden && s.unlocked && s.timeoutMs > 0 {
          InvScheduled(s.(lastInteraction := s.now, warning := false, armedAt := s.now), s.timeoutMs);
        }
      case StayUnlocked =>
        if !s.hidden && s.unlocked && s.timeoutMs > 0 {
          InvScheduled(s.(lastInteraction := s.now, warning := false, armedAt := s.now), s.timeoutMs);
        }
      case _ =>
    }
  }

  /** Coming back to the screen establishes what being on screen requires. */
  lemma InvReturn(s: State)
    requires Inv(s.(hidden := true)) && !s.hidden
    ensures Inv(CheckOnReturn(s))
  {
    if s.unlocked && s.timeoutMs > 0 {
      var d := AutoLockReturnDecision(s.now, s.armedAt, s.timeoutMs);
      if d.lock {
        assert Fair(IdleLock(s.now, s.lastInteraction, s.timeoutMs, s.hidden));
      } else {
        InvScheduled(s.(warning := false), d.remainingMs);
      }
    }
  }

  lemma {:induction false} InvSteps(s: State, run: seq<Action>)
    requires Inv(s)
    ensures Inv(Steps(s, run))
  {
    if run != [] {
      InvSteps(s, run[..|run| - 1]);
      InvStep(Steps(s, run[..|run| - 1]), run[|run| - 1]);
    }
  }

  // ---------------------------------------------------------------- theorems

  /** In every run, an unlocked session on screen has been idle for less than the window. */
  lemma VisibleMeansActive(start: int, hidden: bool, run: seq<Action>)
    ensures var s := Steps(Fresh(start, hidden), run);
      s.unlocked && s.timeoutMs > 0 && !s.hidden ==> s.now - s.lastInteraction < s.timeoutMs
  {
    InvSteps(Fresh(start, hidden), run);
  }

  /** In every run, no idle lock fires before the last interaction plus the window, less the throttle. */
  lemma NoEarlyLock(start: int, hidden: bool, run: seq<Action>, i: nat)
    requires i < |Steps(Fresh(start, hidden), run).idleLocks|
    ensures var l := Steps(Fresh(start, hidden), run).idleLocks[i];
      l.at > l.lastInteraction + l.timeoutMs - AUTO_LOCK_RESET_THROTTLE_MS
  {
    InvSteps(Fresh(start, hidden), run);
  }

  /** In every run, a pending warning comes before its lock, by at most 15 seconds and half the window. */
  lemma WarningLeads(start: int, hidden: bool, run: seq<Action>)
    ensures var s := Steps(Fresh(start, hidden), run);
      s.unlocked && s.warnDue.Some? ==>
        s.lockDue.Some? && 0 <= s.lockDue.value - s.warnDue.value <= AUTO_LOCK_WARN_LEAD_MS
        && 2 * (s.lockDue.value - s.warnDue.value) <= s.timeoutMs
  {
    InvSteps(Fresh(start, hidden), run);
  }

  /** On screen the lock is punctual: it fires as soon as the window since the last arming has passed. */
  lemma VisibleLockIsPunctual(start: int, hidden: bool, run: seq<Action>, t: int)
    requires var s := Steps(Fresh(start, hidden), run); s.unlocked && s.timeoutMs > 0 && !s.hidden && t >= s.now
    ensures var s := Steps(Fresh(start, hidden), run);
      var s' := Steps(Fresh(start, hidden), run + [Pass(t)]);
      && (s'.unlocked <==> t < s.armedAt + s.timeoutMs)
      && (!s'.unlocked ==>
            s'.idleLocks == s.idleLocks + [IdleLock(s.armedAt + s.timeoutMs, s.lastInteraction, s.timeoutMs, false)])
  {
    assert (run + [Pass(t)])[..|run|] == run;
    InvSteps(Fresh(start, hidden), run);
  }

  // ---------------------------------------------------------------- what counts, and when timers come due

  /**
   * On a visible unlocked page every key press, and every click or change on a control, counts as an
   * interaction now; any other event, and any event on a hidden or locked page, leaves the state alone.
   */
  lemma {:induction false} InputCounts(s: State, event: EventType, onControl: bool)
    ensures var s' := Step(s, Input(event, onControl));
      if s.unlocked && !s.hidden && (event == KeyDown || (onControl && (event == Click || event == Change)))
      then s'.lastInteraction == s.now else s' == s
  {}

  /**
   * Such an interaction puts both timers off to a whole window from now, unless the last one that did is
   * less than a second old and no warning is up; the lock then comes after the window and the warning
   * fifteen seconds before it, or half a window for one shorter than half a minute.
   */
  lemma {:induction false} InteractionRearms(s: State, onControl: bool)
    requires s.unlocked && !s.hidden && s.timeoutMs > 0 && (s.warning || s.now - s.armedAt >= 1_000)
    ensures var s' := Step(s, Input(KeyDown, onControl));
      && s'.armedAt == s.now && !s'.warning && s'.lockDue == Some(s.now + s.timeoutMs)
      && s'.warnDue == Some(s.now + s.timeoutMs - if s.timeoutMs >= 30_000 then 15_000 else s.timeoutMs / 2)
  {}

  /** Within that second, and with no warning up, an interaction changes nothing but its own time. */
  lemma {:induction false} InteractionThrottled(s: State, onControl: bool)
    requires s.unlocked && !s.hidden && !s.warning && s.now - s.armedAt < 1_000
    ensures Step(s, Input(KeyDown, onControl)) == s.(lastInteraction := s.now)
  {}

  /** Installing takes the minutes as a window from now on, or no window at all for zero or fewer. */
  lemma {:induction false} InstallingArms(s: State, minutes: int)
    requires s.unlocked
    ensures var s' := Step(s, SetTimeout(minutes));
      if minutes <= 0 then s'.timeoutMs == 0 && s'.lockDue.None? && s'.warnDue.None?
      else s'.timeoutMs == minutes * 60_000 && s'.armedAt == s.now && s'.lockDue == Some(s.now + minutes * 60_000)
  {}
}
