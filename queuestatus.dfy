/**
 * The status panel (src/components/QueueStatus.tsx): fetching the status, the
 * compact alert it shows on every qualifying fetch (without de-duplication),
 * the notification permission button, the two repeating timers and the
 * progress bar.
 *
 * As for the widget, the state is a record and each handler a function from
 * state to state plus effects; the class runs the handlers on fields. Timers
 * are flags (armed or not) and a count of pending 5-second hide timers; their
 * durations and `refreshTime` (a clock reading) are left out.
 */
module QueueStatusDisplay {
  import opened Wrappers
  import opened Text
  import opened Browser
  import opened GoogleSheets

  const FetchErrorMessage: string := "ไม่สามารถดึงข้อมูลคิวได้ กรุณาลองใหม่อีกครั้ง"
  const UnsupportedMessage: string := "เบราว์เซอร์ของคุณไม่รองรับการแจ้งเตือน"

  /** Something the panel did outside its own state. */
  datatype Effect =
    | Fetched(queueNumber: int)
    | Notified(notice: Notice)
    | HideScheduled
    | Alerted(message: string)
    | PermissionRequested

  /** The panel's state, with the armed timers. */
  datatype PanelState = PanelState(
    status: Option<QueueStatus>,
    loading: bool,
    error: Option<string>,
    notificationEnabled: bool,
    showNotification: bool,
    pendingHides: nat,
    refreshArmed: bool,
    notifyArmed: bool)

  const Initial: PanelState := PanelState(None, true, None, false, false, 0, false, false)

  datatype Reaction = Reaction(next: PanelState, effects: seq<Effect>)

  /**
   * `showQueueNotification`: nothing at all without the API; otherwise the banner is shown,
   * a platform notification is created if permitted, and a new hide timer is armed.
   */
  function AfterShowNotification(s: PanelState, position: int, platform: Platform): (r: Reaction)
    ensures platform == Unsupported ==> r == Reaction(s, [])
    ensures platform.Supported? ==>
      r.next == s.(showNotification := true, pendingHides := s.pendingHides + 1) &&
      (exists n :: Notified(n) in r.effects) == platform.MayNotify() &&
      (Notified(Notice(NearTitle, NearBody(position))) in r.effects <==> platform.MayNotify()) &&
      HideScheduled in r.effects
    ensures r.next.pendingHides == s.pendingHides + HideCount(r.effects)
  {
    if !platform.Supported? then Reaction(s, [])
    else
      var notice := if platform.permission == Granted then [Notified(Notice(NearTitle, NearBody(position)))] else [];
      assert platform.MayNotify() ==> Notified(Notice(NearTitle, NearBody(position))) in notice + [HideScheduled];
      HideCountAppend(notice, [HideScheduled]);
      assert HideCount([HideScheduled]) == 1;
      Reaction(s.(showNotification := true, pendingHides := s.pendingHides + 1), notice + [HideScheduled])
  }

  /** The alert condition of `fetchStatus`: checked anew on every fetch, with no memory of earlier alerts. */
  predicate FetchAlerts(s: PanelState, data: QueueStatus)
    ensures FetchAlerts(s, data) <==> s.notificationEnabled && CheckNotification(Success(data))
  {
    s.notificationEnabled && data.position <= NotifyWithin
  }

  /** `fetchStatus` once its `getQueueStatus` call has settled with `reply`. */
  function AfterFetch(s: PanelState, queueNumber: int, reply: Reply<QueueStatus>, platform: Platform): (r: Reaction)
    ensures !r.next.loading
    ensures |r.effects| >= 1 && r.effects[0] == Fetched(queueNumber)
    ensures r.next.notificationEnabled == s.notificationEnabled
    ensures r.next.refreshArmed == s.refreshArmed && r.next.notifyArmed == s.notifyArmed
  {
    match reply
    case Success(data) =>
      var fetched := s.(loading := true, error := None, status := Some(data));
      if FetchAlerts(s, data) then
        var shown := AfterShowNotification(fetched, data.position, platform);
        Reaction(shown.next.(loading := false), [Fetched(queueNumber)] + shown.effects)
      else Reaction(fetched.(loading := false), [Fetched(queueNumber)])
    case Failure(_) =>
      Reaction(s.(loading := false, error := Some(FetchErrorMessage)), [Fetched(queueNumber)])
  }

  /** The effect body: fetch once, arm the 30-second refresh, and the 15-second check iff notifications are on. */
  function AfterEffectRun(s: PanelState, queueNumber: int, reply: Reply<QueueStatus>, platform: Platform): (r: Reaction)
    ensures r.next.refreshArmed && (r.next.notifyArmed <==> s.notificationEnabled)
    ensures r.next.(refreshArmed := s.refreshArmed, notifyArmed := s.notifyArmed) == AfterFetch(s, queueNumber, reply, platform).next
    ensures r.effects == AfterFetch(s, queueNumber, reply, platform).effects
  {
    var fetched := AfterFetch(s, queueNumber, reply, platform);
    Reaction(fetched.next.(refreshArmed := true, notifyArmed := s.notificationEnabled), fetched.effects)
  }

  /** The effect's cleanup. */
  function AfterCleanup(s: PanelState): (n: PanelState)
    ensures !n.refreshArmed && !n.notifyArmed
    ensures n.(refreshArmed := s.refreshArmed, notifyArmed := s.notifyArmed) == s
  {
    s.(refreshArmed := false, notifyArmed := false)
  }

  /**
   * A tick of the 15-second timer: `checkNotification` (itself one fetch), then, if it says so,
   * a second fetch whose position is shown. A rejected second fetch is swallowed.
   */
  function AfterNotifyTick(s: PanelState, queueNumber: int, check: Reply<QueueStatus>,
                           second: Reply<QueueStatus>, platform: Platform): (r: Reaction)
    ensures r.next.status == s.status && r.next.error == s.error && r.next.loading == s.loading
    ensures r.next.notificationEnabled == s.notificationEnabled
    ensures r.next.refreshArmed == s.refreshArmed && r.next.notifyArmed == s.notifyArmed
    ensures |r.effects| >= 1 && r.effects[0] == Fetched(queueNumber)
    ensures r.next.pendingHides == s.pendingHides + HideCount(r.effects) && HideCount(r.effects) <= 1
    ensures HideCount(r.effects) == 1 <==> CheckNotification(check) && second.Success? && platform.Supported?
    ensures !CheckNotification(check) ==> r.next == s
    ensures HideCount(r.effects) == 1 ==> r.next == AfterShowNotification(s, second.value.position, platform).next
  {
    if !CheckNotification(check) then Reaction(s, [Fetched(queueNumber)])
    else match second
      case Success(status) =>
        var shown := AfterShowNotification(s, status.position, platform);
        HideCountAppend([Fetched(queueNumber), Fetched(queueNumber)], shown.effects);
        Reaction(shown.next, [Fetched(queueNumber), Fetched(queueNumber)] + shown.effects)
      case Failure(_) =>
        HideCountAppend([Fetched(queueNumber)], [Fetched(queueNumber)]);
        assert [Fetched(queueNumber)] + [Fetched(queueNumber)] == [Fetched(queueNumber), Fetched(queueNumber)];
        assert HideCount([Fetched(queueNumber)]) == 0;
        Reaction(s, [Fetched(queueNumber), Fetched(queueNumber)])
  }

  /** A 5-second hide timer fires: the banner goes, even if a later alert armed another timer. */
  function AfterHide(s: PanelState): (n: PanelState)
    requires s.pendingHides > 0
    ensures !n.showNotification && n.pendingHides == s.pendingHides - 1
    ensures n.(showNotification := s.showNotification, pendingHides := s.pendingHides) == s
  {
    s.(showNotification := false, pendingHides := s.pendingHides - 1)
  }

  /** `enableNotifications`; unlike the widget's, it sends no test notification. */
  function AfterEnable(s: PanelState, platform: Platform, answer: Permission): (r: Reaction)
    ensures r.next.(notificationEnabled := s.notificationEnabled) == s
    ensures r.next.notificationEnabled <==>
      s.notificationEnabled || platform == Supported(Granted) || (platform == Supported(Default) && answer == Granted)
  {
    match platform
    case Unsupported => Reaction(s, [Alerted(UnsupportedMessage)])
    case Supported(Granted) => Reaction(s.(notificationEnabled := true), [])
    case Supported(Denied) => Reaction(s, [])
    case Supported(Default) =>
      Reaction(s.(notificationEnabled := s.notificationEnabled || answer == Granted), [PermissionRequested])
  }

  /** After a fetch the spinner is off; success replaces the status and clears the error, failure keeps the status. */
  lemma FetchOutcome(s: PanelState, queueNumber: int, reply: Reply<QueueStatus>, platform: Platform)
    ensures var n := AfterFetch(s, queueNumber, reply, platform).next;
      !n.loading &&
      (reply.Success? ==> n.error == None && n.status == Some(reply.value)) &&
      (reply.Failure? ==> n.error == Some(FetchErrorMessage) && n.status == s.status) &&
      n.notificationEnabled == s.notificationEnabled &&
      n.refreshArmed == s.refreshArmed && n.notifyArmed == s.notifyArmed
  {
  }

  /**
   * A successful fetch shows the banner and arms a hide timer exactly when notifications are on
   * and the position is within 5 (on a supported platform), whether or not a banner is already up.
   */
  lemma FetchAlertsIff(s: PanelState, queueNumber: int, data: QueueStatus, platform: Platform)
    requires platform.Supported?
    ensures var n := AfterFetch(s, queueNumber, Success(data), platform).next;
      (n.pendingHides == s.pendingHides + 1 <==> FetchAlerts(s, data)) &&
      (!FetchAlerts(s, data) ==> n.pendingHides == s.pendingHides && n.showNotification == s.showNotification) &&
      (FetchAlerts(s, data) ==> n.showNotification)
  {
  }

  lemma AppendAssoc(a: seq<Effect>, b: seq<Effect>, c: seq<Effect>)
    ensures a + b + c == a + (b + c)
  {
  }

  /** The number of hide timers armed in a list of effects. */
  function HideCount(effects: seq<Effect>): nat {
    if effects == [] then 0
    else (if effects[0] == HideScheduled then 1 else 0) + HideCount(effects[1..])
  }

  lemma {:induction false} HideCountAppend(a: seq<Effect>, b: seq<Effect>)
    ensures HideCount(a + b) == HideCount(a) + HideCount(b)
  {
    if a == [] {
      assert a + b == b;
    } else {
      assert (a + b)[1..] == a[1..] + b;
      HideCountAppend(a[1..], b);
    }
  }

  /** Successive fetches with the given replies. */
  function FetchRun(s: PanelState, queueNumber: int, replies: seq<QueueStatus>, platform: Platform): Reaction
    decreases |replies|
  {
    if replies == [] then Reaction(s, [])
    else
      var first := AfterFetch(s, queueNumber, Success(replies[0]), platform);
      var rest := FetchRun(first.next, queueNumber, replies[1..], platform);
      Reaction(rest.next, first.effects + rest.effects)
  }

  /** No de-duplication: with notifications on, every fetch at position 5 or less raises its own alert. */
  lemma {:induction false} EveryQualifyingFetchAlerts(s: PanelState, queueNumber: int, replies: seq<QueueStatus>, platform: Platform)
    requires platform.Supported? && s.notificationEnabled
    requires forall i :: 0 <= i < |replies| ==> replies[i].position <= NotifyWithin
    ensures HideCount(FetchRun(s, queueNumber, replies, platform).effects) == |replies|
    ensures FetchRun(s, queueNumber, replies, platform).next.pendingHides == s.pendingHides + |replies|
    decreases |replies|
  {
    if replies != [] {
      var first := AfterFetch(s, queueNumber, Success(replies[0]), platform);
      var shown := AfterShowNotification(s.(loading := true, error := None, status := Some(replies[0])),
                                         replies[0].position, platform);
      assert first.effects == [Fetched(queueNumber)] + shown.effects;
      var notice := if platform.permission == Granted
                    then [Notified(Notice(NearTitle, NearBody(replies[0].position)))] else [];
      assert shown.effects == notice + [HideScheduled];
      HideCountAppend(notice, [HideScheduled]);
      HideCountAppend([Fetched(queueNumber)], shown.effects);
      EveryQualifyingFetchAlerts(first.next, queueNumber, replies[1..], platform);
      HideCountAppend(first.effects, FetchRun(first.next, queueNumber, replies[1..], platform).effects);
    }
  }

  /** While mounted the refresh timer is armed and the check timer iff notifications are on; cleanup disarms both. */
  lemma TimersArmed(s: PanelState, queueNumber: int, reply: Reply<QueueStatus>, platform: Platform)
    ensures var n := AfterEffectRun(s, queueNumber, reply, platform).next;
      n.refreshArmed && (n.notifyArmed <==> s.notificationEnabled)
    ensures !AfterCleanup(s).refreshArmed && !AfterCleanup(s).notifyArmed
    ensures AfterCleanup(s).(refreshArmed := s.refreshArmed, notifyArmed := s.notifyArmed) == s
  {
  }

  /** A check tick whose fetches fail changes no state, and no tick touches the status, error or spinner. */
  lemma NotifyTickFailuresChangeNothing(s: PanelState, queueNumber: int, check: Reply<QueueStatus>,
                                        second: Reply<QueueStatus>, platform: Platform)
    ensures check.Failure? ==> AfterNotifyTick(s, queueNumber, check, second, platform).next == s
    ensures second.Failure? ==> AfterNotifyTick(s, queueNumber, check, second, platform).next == s
    ensures var n := AfterNotifyTick(s, queueNumber, check, second, platform).next;
      n.status == s.status && n.error == s.error && n.loading == s.loading &&
      n.notificationEnabled == s.notificationEnabled
  {
  }

  /**
   * The tick shows the position of its second fetch, which it does not check again: against the
   * demo authority a check at position 0 can be followed by an alert for position 9.
   */
  lemma NotifyTickShowsUncheckedPosition()
    ensures var check := GetQueueStatus(20, 0.0);
      var second := GetQueueStatus(20, 0.9);
      var enabled := AfterEnable(Initial, Supported(Granted), Granted).next;
      var mounted := AfterEffectRun(enabled, 20, Success(second), Supported(Granted)).next;
      mounted.notifyArmed &&
      CheckNotification(Success(check)) && second.position == 9 &&
      Notified(Notice(NearTitle, NearBody(9))) in
        AfterNotifyTick(mounted, 20, Success(check), Success(second), Supported(Granted)).effects
  {
    OffsetReachable(0);
    OffsetReachable(9);
    assert 0.0 == 0 as real / 10.0;
    assert 0.9 == 9 as real / 10.0;
  }

  /** Granted enables; denied leaves it off without a request; default requests and enables iff granted. */
  lemma EnableCases(s: PanelState, platform: Platform, answer: Permission)
    ensures platform == Supported(Granted) ==> AfterEnable(s, platform, answer).next.notificationEnabled
    ensures platform == Supported(Denied) ==> AfterEnable(s, platform, answer) == Reaction(s, [])
    ensures platform == Unsupported ==> AfterEnable(s, platform, answer) == Reaction(s, [Alerted(UnsupportedMessage)])
    ensures platform == Supported(Default) ==>
      AfterEnable(s, platform, answer).effects == [PermissionRequested] &&
      (AfterEnable(s, platform, answer).next.notificationEnabled <==> s.notificationEnabled || answer == Granted)
    ensures s.notificationEnabled ==> AfterEnable(s, platform, answer).next.notificationEnabled
    ensures AfterEnable(s, platform, answer).next.(notificationEnabled := s.notificationEnabled) == s
  {
  }

  /** `Math.min(Math.max(x, 0), 100)`. */
  function Clamp(x: real): (r: real)
    ensures 0.0 <= r <= 100.0
    ensures 0.0 <= x <= 100.0 ==> r == x
    ensures x < 0.0 ==> r == 0.0
    ensures x > 100.0 ==> r == 100.0
  {
    if x < 0.0 then 0.0 else if x > 100.0 then 100.0 else x
  }

  /**
   * `calculateProgress`, on exact reals. With no status it is 0; once the serving number
   * reaches the visitor's it is 100; otherwise it is the served fraction in percent, clamped.
   * A zero queue number with a negative serving number divides by zero in JavaScript
   * (`-Infinity`), which the clamp turns into 0.
   */
  function CalculateProgress(status: Option<QueueStatus>): (p: real)
    ensures 0.0 <= p <= 100.0
    ensures status.None? ==> p == 0.0
    ensures status.Some? && status.value.yourQueueNumber <= status.value.currentQueueNumber ==> p == 100.0
    ensures status.Some? && 0 <= status.value.currentQueueNumber < status.value.yourQueueNumber ==>
      p == status.value.currentQueueNumber as real / status.value.yourQueueNumber as real * 100.0
    ensures status.Some? && status.value.currentQueueNumber < status.value.yourQueueNumber ==>
      p == (if status.value.yourQueueNumber == 0 then 0.0
            else Clamp(status.value.currentQueueNumber as real / status.value.yourQueueNumber as real * 100.0))
  {
    match status
    case None => 0.0
    case Some(s) =>
      var total := s.yourQueueNumber;
      var current := s.currentQueueNumber;
      if total <= current then 100.0
      else if total == 0 then 0.0
      else
        var x := current as real / total as real * 100.0;
        FractionBelowOne(current, total);
        Clamp(x)
  }

  lemma FractionBelowOne(current: int, total: int)
    requires current < total && total != 0
    ensures 0 <= current ==> 0.0 <= current as real / total as real * 100.0 <= 100.0
  {
    if 0 <= current {
      var f := current as real / total as real;
      assert f * total as real == current as real;
      assert f < 1.0;
    }
  }

  /** For a fixed queue number, the bar never moves back as the serving number advances. */
  lemma ProgressMonotone(s: QueueStatus, later: QueueStatus)
    requires later.yourQueueNumber == s.yourQueueNumber
    requires s.currentQueueNumber <= later.currentQueueNumber
    ensures CalculateProgress(Some(s)) <= CalculateProgress(Some(later))
  {
    var total := s.yourQueueNumber;
    if total > later.currentQueueNumber && total != 0 {
      var a := s.currentQueueNumber as real / total as real * 100.0;
      var b := later.currentQueueNumber as real / total as real * 100.0;
      DivisionMonotone(s.currentQueueNumber, later.currentQueueNumber, total);
    }
  }

  lemma DivisionMonotone(a: int, b: int, t: int)
    requires a <= b && t != 0 && b < t
    ensures a as real / t as real * 100.0 <= b as real / t as real * 100.0 || t < 0
  {
    if t > 0 {
      var fa, fb := a as real / t as real, b as real / t as real;
      assert fa * t as real == a as real;
      assert fb * t as real == b as real;
      assert (fb - fa) * t as real == (b - a) as real;
    }
  }

  /** The status panel's state and the effects it has had so far. */
  class Display {
    const queueNumber: int
    var status: Option<QueueStatus>
    var loading: bool
    var error: Option<string>
    var notificationEnabled: bool
    var showNotification: bool
    var pendingHides: nat
    var refreshArmed: bool
    var notifyArmed: bool
    /** Effects, oldest first. */
    var effects: seq<Effect>

    function State(): PanelState
      reads this
    {
      PanelState(status, loading, error, notificationEnabled, showNotification, pendingHides, refreshArmed, notifyArmed)
    }

    /** The panel as first rendered, before its effect has run. */
    constructor (queueNumber: int)
      ensures this.queueNumber == queueNumber && State() == Initial && effects == []
    {
      this.queueNumber := queueNumber;
      status := None;
      loading := true;
      error := None;
      notificationEnabled := false;
      showNotification := false;
      pendingHides := 0;
      refreshArmed := false;
      notifyArmed := false;
      effects := [];
    }

    method ShowQueueNotification(position: int, platform: Platform)
      modifies this
      ensures var r := AfterShowNotification(old(State()), position, platform);
        State() == r.next && effects == old(effects) + r.effects
    {
      if !platform.Supported? {
        return;
      }
      showNotification := true;
      var notice: seq<Effect> := [];
      if platform.permission == Granted {
        notice := [Notified(Notice(NearTitle, NearBody(position)))];
        effects := effects + notice;
      }
      assert effects == old(effects) + notice;
      pendingHides := pendingHides + 1;
      AppendAssoc(old(effects), notice, [HideScheduled]);
      effects := effects + [HideScheduled];
    }

    /** `fetchStatus`, run to completion with the reply of its `getQueueStatus` call. */
    method FetchStatus(reply: Reply<QueueStatus>, platform: Platform)
      modifies this
      ensures var r := AfterFetch(old(State()), queueNumber, reply, platform);
        State() == r.next && effects == old(effects) + r.effects
    {
      loading := true;
      error := None;
      effects := effects + [Fetched(queueNumber)];
      match reply {
        case Success(data) =>
          status := Some(data);
          if notificationEnabled && data.position <= NotifyWithin {
            AppendAssoc(old(effects), [Fetched(queueNumber)], AfterShowNotification(State(), data.position, platform).effects);
            ShowQueueNotification(data.position, platform);
          }
        case Failure(_) =>
          error := Some(FetchErrorMessage);
      }
      loading := false;
    }

    /** `enableNotifications`; returns the platform after any permission request. */
    method EnableNotifications(platform: Platform, answer: Permission) returns (after: Platform)
      modifies this
      ensures var r := AfterEnable(old(State()), platform, answer);
        State() == r.next && effects == old(effects) + r.effects
      ensures after == AfterRequest(platform, answer)
    {
      after := platform;
      if !platform.Supported? {
        effects := effects + [Alerted(UnsupportedMessage)];
        return;
      }
      if platform.permission == Granted {
        notificationEnabled := true;
      } else if platform.permission != Denied {
        effects := effects + [PermissionRequested];
        after := Supported(answer);
        if answer == Granted {
          notificationEnabled := true;
        }
      }
    }

    /** The effect, run on mount and whenever `notificationEnabled` changes (after the cleanup). */
    method RunEffect(reply: Reply<QueueStatus>, platform: Platform)
      modifies this
      ensures var r := AfterEffectRun(old(State()), queueNumber, reply, platform);
        State() == r.next && effects == old(effects) + r.effects
    {
      FetchStatus(reply, platform);
      refreshArmed := true;
      notifyArmed := notificationEnabled;
    }

    /** The effect's cleanup: both intervals are cleared. */
    method Cleanup()
      modifies this
      ensures State() == AfterCleanup(old(State())) && effects == old(effects)
    {
      refreshArmed := false;
      notifyArmed := false;
    }

    /** A tick of the 30-second refresh timer. */
    method RefreshTick(reply: Reply<QueueStatus>, platform: Platform)
      requires refreshArmed
      modifies this
      ensures var r := AfterFetch(old(State()), queueNumber, reply, platform);
        State() == r.next && effects == old(effects) + r.effects
    {
      FetchStatus(reply, platform);
    }

    /** A tick of the 15-second check timer; its failures are swallowed. */
    method NotifyTick(check: Reply<QueueStatus>, second: Reply<QueueStatus>, platform: Platform)
      requires notifyArmed
      modifies this
      ensures var r := AfterNotifyTick(old(State()), queueNumber, check, second, platform);
        State() == r.next && effects == old(effects) + r.effects
    {
      effects := effects + [Fetched(queueNumber)];
      var shouldNotify := CheckNotification(check);
      if shouldNotify {
        effects := effects + [Fetched(queueNumber)];
        match second {
          case Success(status) =>
            AppendAssoc(old(effects), [Fetched(queueNumber), Fetched(queueNumber)],
                        AfterShowNotification(old(State()), status.position, platform).effects);
            ShowQueueNotification(status.position, platform);
          case Failure(_) =>
            assert effects == old(effects) + [Fetched(queueNumber), Fetched(queueNumber)];
        }
      }
    }

    /** One of the pending 5-second hide timers fires. */
    method HideTimerFires()
      requires pendingHides > 0
      modifies this
      ensures State() == AfterHide(old(State())) && effects == old(effects)
    {
      showNotification := false;
      pendingHides := pendingHides - 1;
    }
  }
}
