/**
 * The browser's notification facility as the client sees it: whether the
 * `Notification` API exists at all, and if it does, the page's permission;
 * and the "turn is near" notification, whose text both components write out.
 */
module Browser {
  import opened Wrappers
  import opened Text

  /** `Notification.permission`, and equally the answer of `Notification.requestPermission()`. */
  datatype Permission = Default | Granted | Denied

  /** `'Notification' in window` decides between the two. */
  datatype Platform = Unsupported | Supported(permission: Permission) {

    /** A notification constructed now is shown. */
    predicate MayNotify() {
      this == Supported(Granted)
    }
  }

  /**
   * The platform after `Notification.requestPermission()` answered `answer`:
   * only a permission still at `default` can change.
   */
  function AfterRequest(p: Platform, answer: Permission): (q: Platform)
    ensures p != Supported(Default) ==> q == p
    ensures p == Supported(Default) ==> q == Supported(answer)
  {
    if p == Supported(Default) then Supported(answer) else p
  }

  /** The title and body of a platform notification, as constructed by `new Notification(title, { body })`. */
  datatype Notice = Notice(title: string, body: string)

  /** The title of the "your turn is near" notification, the same in the widget and the status panel. */
  const NearTitle: string := "เตรียมตัวได้เลย!"
  const NearBodyPrefix: string := "คิวของคุณอีก "
  const NearBodySuffix: string := " คิว จะถึงคิวคุณแล้ว"

  /** The notification body for `position`. */
  function NearBody(position: int): string {
    NearBodyPrefix + IntToString(position) + NearBodySuffix
  }

  /** The body names its position: it sits between two fixed texts and reads back from there. */
  lemma NearBodyReadBack(position: int)
    ensures var b := NearBody(position);
      |b| > |NearBodyPrefix| + |NearBodySuffix| &&
      b[..|NearBodyPrefix|] == NearBodyPrefix &&
      b[|b| - |NearBodySuffix|..] == NearBodySuffix &&
      ParseInt(b[|NearBodyPrefix|..|b| - |NearBodySuffix|]) == Some(position)
  {
    var q := IntToString(position);
    var b := NearBody(position);
    assert b[|NearBodyPrefix|..|b| - |NearBodySuffix|] == q;
    assert b[|b| - |NearBodySuffix|..] == NearBodySuffix;
    IntToStringRoundTrip(position);
  }
}
