/**
 * The floating alert widget (src/components/NotificationSystem.tsx): the
 * sound and notification toggles and the effect that raises the "your turn is
 * near" banner when the position is 5 or less.
 *
 * The banner is de-duplicated only by its own visibility flag: while it is
 * showing no new alert is raised, and the 10-second timer that hides it is
 * what allows the next one. The state is a record, each handler a function
 * from state to state plus the effects it had (platform notifications,
 * sounds, browser alerts, permission requests, armed timers); the class below
 * runs those handlers on fields.
 */
module NotificationSystem {
  import opened Wrappers
  import opened Text
  import opened Browser

  const NearWithin: int := 5
  const UnsupportedMessage: string := "เบราว์เซอร์ของคุณไม่รองรับการแจ้งเตือน"
  const EnabledNotice: Notice := Notice("การแจ้งเตือนทำงานแล้ว", "คุณจะได้รับการแจ้งเตือนเมื่อใกล้ถึงคิวของคุณ")

  /** Something the widget did outside its own state. */
  datatype Effect =
    | Notified(notice: Notice)
    | SoundPlayed
    | SoundFailed
    | Alerted(message: string)
    | PermissionRequested
    | DismissScheduled

  /** The component's state; `dismissPending` says that the 10-second hide timer is armed. */
  datatype NotifierState = NotifierState(
    notificationsEnabled: bool,
    soundEnabled: bool,
    showingNotification: bool,
    dismissPending: bool)

  /** The banner is showing exactly while its hide timer is pending. */
  predicate Consistent(s: NotifierState) {
    s.showingNotification == s.dismissPending
  }

  const Initial: NotifierState := NotifierState(false, true, false, false)

  /** A handler's new state and what it did, in order. */
  datatype Reaction = Reaction(next: NotifierState, effects: seq<Effect>)

  /** The effect's guard: a known position within 5 and no banner already up. */
  predicate AlertDue(position: Option<int>, showing: bool)
    ensures AlertDue(position, showing) ==> position.Some? && !showing
    ensures position.Some? && !showing ==> (AlertDue(position, showing) <==> position.value <= NearWithin)
  {
    position.Some? && position.value <= NearWithin && !showing
  }

  /**
   * `playNotificationSound`: nothing when muted. `audioThrows` is a synchronous throw (from
   * `new Audio` or the `play` call), which the `try` catches and only logs; a rejected playback
   * promise escapes the `try` and is not modelled.
   */
  function PlaySound(soundEnabled: bool, audioThrows: bool): (e: seq<Effect>)
    ensures !soundEnabled ==> e == []
    ensures soundEnabled ==> |e| == 1 && (e[0] == SoundFailed <==> audioThrows) && (e[0] == SoundPlayed <==> !audioThrows)
  {
    if !soundEnabled then [] else if audioThrows then [SoundFailed] else [SoundPlayed]
  }

  /**
   * The effect run on a change of `position` or `notificationsEnabled`. Notifications can
   * only be enabled once the API was found, so an enabled widget sees a supported platform.
   */
  function OnPosition(s: NotifierState, position: Option<int>, platform: Platform, audioThrows: bool): (r: Reaction)
    requires s.notificationsEnabled ==> platform.Supported?
    ensures !AlertDue(position, s.showingNotification) ==> r == Reaction(s, [])
    ensures AlertDue(position, s.showingNotification) ==>
      r.next == s.(showingNotification := true, dismissPending := true) &&
      |r.effects| >= 1 && r.effects[|r.effects| - 1] == DismissScheduled
  {
    if !AlertDue(position, s.showingNotification) then Reaction(s, [])
    else
      var notice := if s.notificationsEnabled && platform.MayNotify()
                    then [Notified(Notice(NearTitle, NearBody(position.value)))] else [];
      Reaction(s.(showingNotification := true, dismissPending := true),
               notice + PlaySound(s.soundEnabled, audioThrows) + [DismissScheduled])
  }

  /** The hide timer's callback. */
  function Dismiss(s: NotifierState): (n: NotifierState)
    ensures !n.showingNotification && !n.dismissPending
    ensures n.(showingNotification := s.showingNotification, dismissPending := s.dismissPending) == s
  {
    s.(showingNotification := false, dismissPending := false)
  }

  /** `toggleSound`. */
  function SoundToggled(s: NotifierState): (n: NotifierState)
    ensures n.soundEnabled == !s.soundEnabled
    ensures n.(soundEnabled := s.soundEnabled) == s
  {
    s.(soundEnabled := !s.soundEnabled)
  }

  /** `enableNotifications`, with `answer` the result `Notification.requestPermission()` would give. */
  function AfterEnable(s: NotifierState, platform: Platform, answer: Permission): (r: Reaction)
    ensures r.next.(notificationsEnabled := s.notificationsEnabled) == s
    ensures r.next.notificationsEnabled <==>
      s.notificationsEnabled || platform == Supported(Granted) || (platform == Supported(Default) && answer == Granted)
  {
    match platform
    case Unsupported => Reaction(s, [Alerted(UnsupportedMessage)])
    case Supported(Granted) => Reaction(s.(notificationsEnabled := true), [])
    case Supported(Denied) => Reaction(s, [])
    case Supported(Default) =>
      if answer == Granted then Reaction(s.(notificationsEnabled := true), [PermissionRequested, Notified(EnabledNotice)])
      else Reaction(s, [PermissionRequested])
  }

  /** An alert is raised (its hide timer armed) exactly when the guard holds, and the banner is then up. */
  lemma AlertFiresIff(s: NotifierState, position: Option<int>, platform: Platform, audioThrows: bool)
    requires s.notificationsEnabled ==> platform.Supported?
    ensures var r := OnPosition(s, position, platform, audioThrows);
      (DismissScheduled in r.effects <==> AlertDue(position, s.showingNotification)) &&
      r.next.showingNotification == (s.showingNotification || AlertDue(position, s.showingNotification)) &&
      r.next.notificationsEnabled == s.notificationsEnabled && r.next.soundEnabled == s.soundEnabled
  {
  }

  /**
   * A platform notification is created exactly for a raised alert with notifications enabled
   * and permission granted; the banner does not depend on either.
   */
  lemma NotifiesOnlyWhenPermitted(s: NotifierState, position: Option<int>, platform: Platform, audioThrows: bool)
    requires s.notificationsEnabled ==> platform.Supported?
    ensures var r := OnPosition(s, position, platform, audioThrows);
      (exists n :: Notified(n) in r.effects) <==>
        AlertDue(position, s.showingNotification) && s.notificationsEnabled && platform.MayNotify()
    ensures AlertDue(position, s.showingNotification) && s.notificationsEnabled && platform.MayNotify() ==>
      Notified(Notice(NearTitle, NearBody(position.value))) in OnPosition(s, position, platform, audioThrows).effects
  {
    var r := OnPosition(s, position, platform, audioThrows);
    if AlertDue(position, s.showingNotification) && s.notificationsEnabled && platform.MayNotify() {
      assert Notified(Notice(NearTitle, NearBody(position.value))) in r.effects;
    }
  }

  /** A sound is attempted exactly for a raised alert with sound on. */
  lemma SoundOnlyWhenEnabled(s: NotifierState, position: Option<int>, platform: Platform, audioThrows: bool)
    requires s.notificationsEnabled ==> platform.Supported?
    ensures var r := OnPosition(s, position, platform, audioThrows);
      (SoundPlayed in r.effects || SoundFailed in r.effects) <==>
        AlertDue(position, s.showingNotification) && s.soundEnabled
  {
  }

  /** The number of alerts raised in a list of effects. */
  function AlertCount(effects: seq<Effect>): nat {
    if effects == [] then 0
    else (if effects[0] == DismissScheduled then 1 else 0) + AlertCount(effects[1..])
  }

  lemma {:induction false} AlertCountAppend(a: seq<Effect>, b: seq<Effect>)
    ensures AlertCount(a + b) == AlertCount(a) + AlertCount(b)
  {
    if a == [] {
      assert a + b == b;
    } else {
      assert (a + b)[1..] == a[1..] + b;
      AlertCountAppend(a[1..], b);
    }
  }

  /** One re-run of the effect: the new position and whether playing the sound would throw. */
  datatype PositionChange = PositionChange(position: Option<int>, audioThrows: bool)

  /** The effect re-run on each change in turn, with no hide timer firing in between. */
  function PositionRun(s: NotifierState, platform: Platform, changes: seq<PositionChange>): Reaction
    requires s.notificationsEnabled ==> platform.Supported?
    decreases |changes|
  {
    if changes == [] then Reaction(s, [])
    else
      var first := OnPosition(s, changes[0].position, platform, changes[0].audioThrows);
      var rest := PositionRun(first.next, platform, changes[1..]);
      Reaction(rest.next, first.effects + rest.effects)
  }

  /** While the banner is showing, no position whatever raises a new alert or changes the state. */
  lemma {:induction false} NoAlertWhileShowing(s: NotifierState, platform: Platform, changes: seq<PositionChange>)
    requires s.notificationsEnabled ==> platform.Supported?
    requires s.showingNotification
    ensures PositionRun(s, platform, changes) == Reaction(s, [])
    decreases |changes|
  {
    if changes != [] {
      NoAlertWhileShowing(s, platform, changes[1..]);
    }
  }

  /** Between two firings of the hide timer at most one alert is raised, however the position moves. */
  lemma {:induction false} AtMostOneAlertPerBanner(s: NotifierState, platform: Platform, changes: seq<PositionChange>)
    requires s.notificationsEnabled ==> platform.Supported?
    ensures AlertCount(PositionRun(s, platform, changes).effects) <= 1
    ensures s.showingNotification ==> AlertCount(PositionRun(s, platform, changes).effects) == 0
    decreases |changes|
  {
    if changes != [] {
      var first := OnPosition(s, changes[0].position, platform, changes[0].audioThrows);
      var rest := PositionRun(first.next, platform, changes[1..]);
      AlertCountAppend(first.effects, rest.effects);
      if AlertDue(changes[0].position, s.showingNotification) {
        NoAlertWhileShowing(first.next, platform, changes[1..]);
        var notice := if s.notificationsEnabled && platform.MayNotify()
                      then [Notified(Notice(NearTitle, NearBody(changes[0].position.value)))] else [];
        var sound := PlaySound(s.soundEnabled, changes[0].audioThrows);
        AlertCountAppend(notice, sound);
        AlertCountAppend(notice + sound, [DismissScheduled]);
      } else {
        AtMostOneAlertPerBanner(first.next, platform, changes[1..]);
      }
    }
  }

  /** Once the hide timer has fired, a position within 5 raises an alert again. */
  lemma AlertAgainAfterDismiss(s: NotifierState, position: int, platform: Platform, audioThrows: bool)
    requires s.notificationsEnabled ==> platform.Supported?
    requires position <= NearWithin
    ensures DismissScheduled in OnPosition(Dismiss(s), Some(position), platform, audioThrows).effects
  {
  }

  /** `notificationsEnabled` is never switched off, and every handler keeps the banner and its timer in step. */
  lemma HandlersKeepInvariants(s: NotifierState, position: Option<int>, platform: Platform, answer: Permission, audioThrows: bool)
    requires Consistent(s)
    requires s.notificationsEnabled ==> platform.Supported?
    ensures var r := OnPosition(s, position, platform, audioThrows);
      Consistent(r.next) && (s.notificationsEnabled ==> r.next.notificationsEnabled)
    ensures var r := AfterEnable(s, platform, answer);
      Consistent(r.next) && (s.notificationsEnabled ==> r.next.notificationsEnabled)
    ensures Consistent(Dismiss(s)) && (s.notificationsEnabled ==> Dismiss(s).notificationsEnabled)
    ensures Consistent(SoundToggled(s)) && (s.notificationsEnabled ==> SoundToggled(s).notificationsEnabled)
  {
  }

  /**
   * Enabling: nothing changes without the API or against a denial (and no request is made);
   * a granted permission enables; at `default` a request is made and enables iff it is granted,
   * with a test notification.
   */
  lemma EnableNotificationsCases(s: NotifierState, platform: Platform, answer: Permission)
    ensures platform == Unsupported ==> AfterEnable(s, platform, answer) == Reaction(s, [Alerted(UnsupportedMessage)])
    ensures platform == Supported(Denied) ==> AfterEnable(s, platform, answer) == Reaction(s, [])
    ensures platform == Supported(Granted) ==> AfterEnable(s, platform, answer).next.notificationsEnabled
    ensures PermissionRequested in AfterEnable(s, platform, answer).effects <==> platform == Supported(Default)
    ensures platform == Supported(Default) ==>
      (AfterEnable(s, platform, answer).next.notificationsEnabled <==> s.notificationsEnabled || answer == Granted)
    ensures platform == Supported(Default) ==>
      AfterEnable(s, platform, answer).effects == [PermissionRequested] + (if answer == Granted then [Notified(EnabledNotice)] else [])
    ensures AfterEnable(s, platform, answer).next.(notificationsEnabled := s.notificationsEnabled) == s
  {
  }

  /** Toggling the sound twice restores it, and touches nothing else. */
  lemma ToggleSoundTwice(s: NotifierState)
    ensures SoundToggled(SoundToggled(s)) == s
    ensures SoundToggled(s).soundEnabled != s.soundEnabled
  {
  }

  /** The widget's state and the effects it has had so far. */
  class Notifier {
    var notificationsEnabled: bool
    var soundEnabled: bool
    var showingNotification: bool
    var dismissPending: bool
    /** Effects, oldest first. */
    var effects: seq<Effect>

    function State(): NotifierState
      reads this
    {
      NotifierState(notificationsEnabled, soundEnabled, showingNotification, dismissPending)
    }

    ghost predicate Valid()
      reads this
    {
      Consistent(State())
    }

    constructor ()
      ensures Valid() && State() == Initial && effects == []
    {
      notificationsEnabled := false;
      soundEnabled := true;
      showingNotification := false;
      dismissPending := false;
      effects := [];
    }

    /** `enableNotifications`; also returns the platform after any permission request. */
    method EnableNotifications(platform: Platform, answer: Permission) returns (after: Platform)
      requires Valid()
      modifies this
      ensures Valid()
      ensures var r := AfterEnable(old(State()), platform, answer);
        State() == r.next && effects == old(effects) + r.effects
      ensures after == AfterRequest(platform, answer)
    {
      after := platform;
      if !platform.Supported? {
        effects := effects + [Alerted(UnsupportedMessage)];
        return;
      }
      if platform.permission == Granted {
        notificationsEnabled := true;
      } else if platform.permission != Denied {
        effects := effects + [PermissionRequested];
        after := Supported(answer);
        if answer == Granted {
          notificationsEnabled := true;
          effects := effects + [Notified(EnabledNotice)];
        }
      }
    }

    /** `toggleSound`. */
    method ToggleSound()
      requires Valid()
      modifies this
      ensures Valid()
      ensures State() == SoundToggled(old(State())) && effects == old(effects)
    {
      soundEnabled := !soundEnabled;
    }

    /** `playNotificationSound`. */
    method PlayNotificationSound(audioThrows: bool)
      modifies this
      ensures State() == old(State()) && effects == old(effects) + PlaySound(soundEnabled, audioThrows)
    {
      if !soundEnabled {
        return;
      }
      if audioThrows {
        effects := effects + [SoundFailed];
      } else {
        effects := effects + [SoundPlayed];
      }
    }

    /** The position effect, re-run by the page whenever `position` or `notificationsEnabled` changes. */
    method PositionEffect(position: Option<int>, platform: Platform, audioThrows: bool)
      requires Valid()
      requires notificationsEnabled ==> platform.Supported?
      modifies this
      ensures Valid()
      ensures var r := OnPosition(old(State()), position, platform, audioThrows);
        State() == r.next && effects == old(effects) + r.effects
    {
      if position.Some? && position.value <= NearWithin && !showingNotification {
        showingNotification := true;
        if notificationsEnabled && platform.permission == Granted {
          effects := effects + [Notified(Notice(NearTitle, NearBody(position.value)))];
        }
        PlayNotificationSound(audioThrows);
        dismissPending := true;
        effects := effects + [DismissScheduled];
      }
    }

    /** The hide timer fires: the banner goes away and the next alert may be raised. */
    method DismissTimerFires()
      requires Valid()
      requires dismissPending
      modifies this
      ensures Valid()
      ensures State() == Dismiss(old(State())) && effects == old(effects)
    {
      showingNotification := false;
      dismissPending := false;
    }
  }
}
