# queuematic — a Dafny model of the hospital queue client

queuematic is a browser client for a hospital queue. A patient types a 13-digit Thai ID card
number and is looked up or registered. They get a ticket (queue number, QR code, a text file to
download or share). A status screen polls the queue, shows progress and raises alerts when the
turn is near. The "backend" is a demo service (`googleSheetsService`) that invents numbers with
`Math.random`.

The model has one module per core source file:

| module | file | form |
|---|---|---|
| `GoogleSheets` | `src/utils/googleSheets.ts` | pure functions over a random draw |
| `QueueForm` | `src/components/QueueForm.tsx` | class `Form` (component state) over pure validation and sanitising |
| `Index` | `src/pages/Index.tsx` | class `Controller` (page state and the `queueData` storage slot) over pure load and merge functions |
| `NotificationSystem` | `src/components/NotificationSystem.tsx` | class `Notifier` whose methods follow pure transition functions |
| `QueueStatusDisplay` | `src/components/QueueStatus.tsx` | class `Display` whose methods follow pure transition functions, plus the progress bar |
| `QRCodeDisplay` | `src/components/QRCodeDisplay.tsx` | pure: download text, file name, share text and routing panel |

Helper modules:
- `Wrappers`: `Option` and `Result`.
- `Text`: decimal rendering and parsing of numbers, JavaScript truthiness of optional strings, `||`, `substring`, and substring search.
- `Browser`: the Notification permission and platform, one notification, and the "turn is near" notification text that the widget and the status panel share.

How the outside world is modelled:
- **Random draws.** Each `Math.random()` result is a `real` parameter `r` with `0 <= r < 1`. `Math.floor(r * n)` is written out with `.Floor`.
- **Service replies.** Each awaited service call is a parameter of type `Reply<T>`. That is either the value or a `Thrown` value: an `Error` object with its message, or anything else.
- **Browser calls.** `window.confirm`, `Notification.requestPermission()` and "does `audio.play()` throw" are parameters.
- **Stateful components.** Each handler is a method run to completion. Its `ensures` gives the new state and the effects it appended (notifications, sounds, alerts, armed timers). The state is defined by a pure function, and the lemmas are proved about that function.
- **Storage.** The `queueData` entry of `localStorage` is an optional stored item. The item either serialises a record or is text that does not parse.

## Model

| member | source | states |
|---|---|---|
| GoogleSheets.RegisterQueue | src/utils/googleSheets.ts:37-61 | the demo registration echoes the ID card number unchanged (it does not validate it); the ticket is waiting, not yet notified, with no departments, and its number lies in 1..100 |
| GoogleSheets.RegisterQueueReachesEveryNumber | src/utils/googleSheets.ts:48 | every number 1..100 is produced by some draw, so 1..100 is exactly the range |
| GoogleSheets.GetQueueStatus | src/utils/googleSheets.ts:66-88 | echoes the queue number; the serving number is at least 1; serving + position = your number; for a number >= 1 the position is 0..9 and below the number; the position is negative only for a number below 1; the estimate is 5 minutes per position; no routing is reported |
| GoogleSheets.GetQueueStatusPosition | src/utils/googleSheets.ts:75-76 | the position is the smaller of the drawn offset and number - 1 (the `Math.max(1, …)` clamp) |
| GoogleSheets.OffsetReachable | src/utils/googleSheets.ts:75 | every offset 0..9 is produced by some draw |
| GoogleSheets.CheckNotification | src/utils/googleSheets.ts:94-102 | a failed lookup gives false; otherwise true exactly when the position is at most 5 |
| GoogleSheets.DemoCheckNotification | src/utils/googleSheets.ts:94-97 | against the demo service the check holds exactly when the drawn offset, cut down to number - 1, is at most 5; so a number of 6 or less always qualifies |
| GoogleSheets.GetSheetUrl | src/utils/googleSheets.ts:107-109 | the URL's length is the prefix, the sheet ID and `/edit` |
| GoogleSheets.SheetUrlNamesSheet | src/utils/googleSheets.ts:27 | the URL is the spreadsheet prefix, then the configured sheet ID, then `/edit` |
| Text.NatToString | src/components/QRCodeDisplay.tsx:41 | a natural number's decimal form is non-empty, all digits, with no leading zero, and one digit long exactly below 10 |
| Text.IntToString | src/components/QRCodeDisplay.tsx:62 | a number inside a template is non-empty, digits after an optional `-`, and has no newline |
| Text.ParseNatToString | src/components/QRCodeDisplay.tsx:62 | reading a rendered natural number back gives the number |
| Text.IntToStringRoundTrip | src/components/QRCodeDisplay.tsx:62 | reading a rendered integer back gives the integer |
| Text.IntToStringInjective | src/components/QueueForm.tsx:94 | two different numbers never render the same |
| Text.OrElse | src/pages/Index.tsx:55-56 | `a \|\| b` on optional strings is `a` when `a` is truthy and `b` otherwise; the result is truthy iff either is |
| Text.SubstringFrom | src/components/QRCodeDisplay.tsx:41 | `substring(start)` clamps `start` into the string: a negative start gives the whole string, one past the end gives "" |
| Text.ContainsMiddle | src/components/QRCodeDisplay.tsx:20-30 | a piece placed in a text occurs in it |
| Browser.AfterRequest | src/components/NotificationSystem.tsx:26-27 | a permission request changes the permission only from `default`, to the user's answer |
| Browser.NearBodyReadBack | src/components/NotificationSystem.tsx:62-64 | the "turn is near" body is the position between two fixed texts, and the position reads back from it (the same template is in QueueStatus.tsx:55-58) |
| QueueForm.MatchesDigits | src/components/QueueForm.tsx:26 | `/^\d{n}$/` matches exactly the strings of n digits |
| QueueForm.ValidIdCardNumber | src/components/QueueForm.tsx:24-28 | valid iff exactly 13 characters, all decimal digits |
| QueueForm.StripNonDigits | src/components/QueueForm.tsx:32 | the result is all digits and no longer than the input; a digit string is unchanged; anything else gets strictly shorter |
| QueueForm.StripNonDigitsIdempotent | src/components/QueueForm.tsx:32 | sanitising twice is sanitising once |
| QueueForm.StripNonDigitsConcat | src/components/QueueForm.tsx:32 | sanitising works character by character: it distributes over concatenation |
| QueueForm.ExistingTicket | src/components/QueueForm.tsx:57-64 | an existing ticket is offered iff the lookup succeeds with a record whose status is waiting, processing or transferred, and then it is that record |
| QueueForm.IsActive | src/components/QueueForm.tsx:59 | the `includes` test: active means waiting, processing or transferred |
| QueueForm.FailureToast | src/components/QueueForm.tsx:98-104 | a failed registration shows a destructive toast with the error's message, or the fallback text for a non-Error value |
| QueueForm.RegisteredToastNamesNumber | src/components/QueueForm.tsx:92-95 | the success toast determines the queue number it announces |
| QueueForm.RegisteredToast | src/components/QueueForm.tsx:92-95 | the success toast is not destructive and the text after its fixed prefix reads back as the queue number |
| QueueForm.ExistingToast | src/components/QueueForm.tsx:114-117 | the taken-over toast is not destructive and the text between its fixed prefix and suffix reads back as the queue number |
| QueueForm.Form.constructor | src/components/QueueForm.tsx:17-20 | empty input, no existing ticket, nothing sent or shown |
| QueueForm.Form.HandleInputChange | src/components/QueueForm.tsx:30-43 | the sanitised value is taken only when it is at most 13 digits, and then any offered ticket is dropped; otherwise nothing changes |
| QueueForm.Form.HandleSubmit | src/components/QueueForm.tsx:74-108 | an invalid ID only shows the warning toast; a valid one sends one registration, and on success announces the number and hands the ticket up, on failure shows the error toast |
| QueueForm.Form.CheckExistingQueue | src/components/QueueForm.tsx:45-72 | an invalid ID shows the warning and sends nothing; an active ticket is offered without registering; otherwise (none, inactive, or a failed lookup) the form registers as `HandleSubmit`, and a failed lookup leaves the offered ticket as it was |
| QueueForm.Form.UseExistingQueue | src/components/QueueForm.tsx:110-119 | an offered ticket is handed up and announced; with none, nothing happens |
| QueueForm.Form.DismissExisting | src/components/QueueForm.tsx:194-195 | the offered ticket is dropped and nothing else changes |
| Index.Load | src/pages/Index.tsx:21-40 | a serialised ticket is restored as itself; nothing stored, or an empty string, is skipped; any other text is unreadable |
| Index.SaveLoadRoundTrip | src/pages/Index.tsx:76 | a ticket saved by the page is read back at startup as the same ticket |
| Index.MergeDepartments | src/pages/Index.tsx:53-57 | a reported (truthy) department or next department overwrites the ticket's, an unreported one keeps it, and no other field changes |
| Index.MergeIdempotent | src/pages/Index.tsx:53-57 | merging the same poll twice is merging it once |
| Index.RefreshTicket | src/pages/Index.tsx:49-63 | a poll never creates or removes a ticket; without routing it changes nothing; with routing the ticket becomes its merge with the poll, so only the two routing fields can change |
| Index.ReportsDepartment | src/pages/Index.tsx:49 | a poll reports routing unless both values are absent or empty strings |
| Index.RefreshAll | src/pages/Index.tsx:43-68 | a run of polls never creates or removes a ticket, and polls without routing leave it as it was |
| Index.RefreshAllKeepsTicket | src/pages/Index.tsx:43-68 | after any run of polls the ticket is still there, with the same identity, number, status and time, and its department is its own or one that some poll reported |
| Index.Screen | src/pages/Index.tsx:108-133 | the form step shows the form; the ticket and status steps show the ticket or the status when there is a ticket, and say there is none otherwise |
| Index.Controller.constructor | src/pages/Index.tsx:15-17 | the page starts on the form with no ticket and no position, over whatever the slot holds |
| Index.Controller.CheckQueuePosition | src/pages/Index.tsx:43-68 | keeps the slot in step with the ticket; a successful poll records its position and merges its routing into the ticket and the slot; a failed poll changes nothing |
| Index.Controller.Startup | src/pages/Index.tsx:21-40 | a saved ticket is taken as it is, the status step is shown and one poll is made; unreadable text is removed; an empty slot changes nothing |
| Index.Controller.HandleQueueRegistered | src/pages/Index.tsx:71-80 | the new ticket is kept and saved, the QR step is shown and one poll is made for its number |
| Index.Controller.HandleBackToForm | src/pages/Index.tsx:83-95 | confirmation is asked exactly on the status step with a ticket; confirming forgets the ticket in the page and in storage; declining changes nothing; in any other case the form is shown and the ticket kept |
| Index.Controller.HandleShowQRCode | src/pages/Index.tsx:98-100 | only the step changes, to the QR code |
| Index.Controller.HandleShowStatus | src/pages/Index.tsx:103-105 | only the step changes, to the status |
| NotificationSystem.AlertFiresIff | src/components/NotificationSystem.tsx:57-77 | the effect raises the banner and arms its 10-second timer exactly when the position is known, at most 5, and no banner is showing |
| NotificationSystem.NotifiesOnlyWhenPermitted | src/components/NotificationSystem.tsx:62-67 | a platform notification naming the position is sent exactly for a raised alert with notifications enabled and permission granted |
| NotificationSystem.SoundOnlyWhenEnabled | src/components/NotificationSystem.tsx:45-54 | a sound is attempted exactly for a raised alert with sound on; `SoundFailed` stands for a synchronous throw, which the `try` catches (a rejected `play()` promise escapes it and is not modelled) |
| NotificationSystem.PlaySound | src/components/NotificationSystem.tsx:45-54 | muted: no effect; otherwise exactly one effect, `SoundFailed` iff the synchronous call throws |
| NotificationSystem.OnPosition | src/components/NotificationSystem.tsx:57-77 | without a due alert nothing happens; with one the banner goes up, its timer is armed, and the last effect schedules the dismissal |
| NotificationSystem.AlertDue | src/components/NotificationSystem.tsx:57 | an alert is due only for a known position with no banner up, and then exactly when the position is at most 5 |
| NotificationSystem.Dismiss | src/components/NotificationSystem.tsx:73-75 | the banner and its pending timer are cleared and nothing else changes |
| NotificationSystem.SoundToggled | src/components/NotificationSystem.tsx:40-42 | the sound setting flips and nothing else changes |
| NotificationSystem.AfterEnable | src/components/NotificationSystem.tsx:18-37 | only `notificationsEnabled` can change, and it ends up on iff it was on, permission was granted, or a default permission was answered with a grant |
| NotificationSystem.AlertCountAppend | src/components/NotificationSystem.tsx:57-77 | counting alerts distributes over concatenated effect lists |
| NotificationSystem.NoAlertWhileShowing | src/components/NotificationSystem.tsx:58 | while the banner is showing, no run of position changes raises an alert or changes the state |
| NotificationSystem.AtMostOneAlertPerBanner | src/components/NotificationSystem.tsx:57-77 | between two firings of the hide timer at most one alert is raised, however the position moves |
| NotificationSystem.AlertAgainAfterDismiss | src/components/NotificationSystem.tsx:73-75 | once the hide timer has fired, a position within 5 raises an alert again |
| NotificationSystem.HandlersKeepInvariants | src/components/NotificationSystem.tsx:18-77 | every handler keeps the banner and its timer in step and never turns notifications off |
| NotificationSystem.EnableNotificationsCases | src/components/NotificationSystem.tsx:18-37 | no API: the unsupported alert and nothing else; denied: nothing; granted: enabled; default: exactly one request, followed by the test notification iff the answer is granted, and enabled iff granted or already on; sound and banner untouched |
| NotificationSystem.ToggleSoundTwice | src/components/NotificationSystem.tsx:40-42 | toggling flips the sound setting, and toggling twice restores the state |
| NotificationSystem.Notifier.constructor | src/components/NotificationSystem.tsx:13-15 | notifications off, sound on, no banner, no effects |
| NotificationSystem.Notifier.EnableNotifications | src/components/NotificationSystem.tsx:18-37 | the new state and effects are those of the enable transition, and the platform afterwards is the one after the request |
| NotificationSystem.Notifier.ToggleSound | src/components/NotificationSystem.tsx:40-42 | the new state is the toggled one, with no effect |
| NotificationSystem.Notifier.PlayNotificationSound | src/components/NotificationSystem.tsx:45-54 | the state is unchanged and, when sound is on, the sound effect is appended, or `SoundFailed` for a synchronous throw caught by the `try` |
| NotificationSystem.Notifier.PositionEffect | src/components/NotificationSystem.tsx:57-77 | the new state and effects are those of the position transition |
| NotificationSystem.Notifier.DismissTimerFires | src/components/NotificationSystem.tsx:73-75 | the banner goes away, nothing else changes |
| QueueStatusDisplay.AfterShowNotification | src/components/QueueStatus.tsx:48-65 | without the API nothing happens; otherwise the banner is shown, a notification naming the position is sent iff permission is granted, and one more 5-second hide timer is armed |
| QueueStatusDisplay.AfterFetch | src/components/QueueStatus.tsx:27-45 | the spinner ends off, the first effect is the fetch, and the notification setting and timers are untouched |
| QueueStatusDisplay.FetchAlerts | src/components/QueueStatus.tsx:36 | a fetch alerts exactly when notifications are on and the service's own `checkNotification` test holds for the fetched status |
| QueueStatusDisplay.AfterEffectRun | src/components/QueueStatus.tsx:85-107 | the state after one fetch with the refresh timer armed and the check timer armed iff notifications are on |
| QueueStatusDisplay.AfterCleanup | src/components/QueueStatus.tsx:108-112 | both timers disarmed, nothing else changed |
| QueueStatusDisplay.AfterNotifyTick | src/components/QueueStatus.tsx:95-105 | status, error, spinner, setting and timers untouched; the first effect is the check's fetch; a hide timer is armed (at most one) exactly when the check holds, the second fetch succeeds and the API exists, and the state is then the show transition for the second fetch's position; a failing check (such as a position above 5) changes nothing |
| QueueStatusDisplay.AfterHide | src/components/QueueStatus.tsx:62-64 | the banner goes and one pending hide is used up; nothing else changes |
| QueueStatusDisplay.AfterEnable | src/components/QueueStatus.tsx:68-82 | only `notificationEnabled` can change, and it ends up on iff it was on, permission was granted, or a default permission was answered with a grant |
| QueueStatusDisplay.FetchOutcome | src/components/QueueStatus.tsx:27-45 | after a fetch the spinner is off; success replaces the status and clears the error; failure keeps the status and sets the error message |
| QueueStatusDisplay.FetchAlertsIff | src/components/QueueStatus.tsx:36-38 | a successful fetch raises an alert exactly when notifications are enabled and the position is at most 5 |
| QueueStatusDisplay.HideCountAppend | src/components/QueueStatus.tsx:62-64 | counting armed hide timers distributes over concatenated effect lists |
| QueueStatusDisplay.EveryQualifyingFetchAlerts | src/components/QueueStatus.tsx:36-38 | there is no de-duplication: with notifications on, each fetch at position 5 or less arms its own hide timer and alert |
| QueueStatusDisplay.TimersArmed | src/components/QueueStatus.tsx:85-113 | the effect arms the 30-second refresh timer, and the 15-second check timer iff notifications are on; the cleanup disarms both and changes nothing else |
| QueueStatusDisplay.NotifyTickFailuresChangeNothing | src/components/QueueStatus.tsx:95-105 | a check tick whose lookups fail changes nothing, and no tick touches the status, error or spinner |
| QueueStatusDisplay.NotifyTickShowsUncheckedPosition | src/components/QueueStatus.tsx:97-100 | with notifications enabled and the check timer armed, the tick shows the position of a second, independent lookup: a check at position 0 can be followed by an alert at position 9 |
| QueueStatusDisplay.EnableCases | src/components/QueueStatus.tsx:68-82 | granted enables; denied does nothing; no API raises only the unsupported alert; default requests once and enables iff the answer is granted; nothing else changes and it never disables |
| QueueStatusDisplay.Clamp | src/components/QueueStatus.tsx:124 | `Math.min(Math.max(x, 0), 100)`: 0 below the range, 100 above it, `x` within it |
| QueueStatusDisplay.CalculateProgress | src/components/QueueStatus.tsx:116-125 | the bar is always within 0..100; no status gives 0; your number at or below the serving one gives 100; below your number it is serving / yours × 100 clamped into 0..100 (unclamped for a non-negative serving number), and 0 for a zero queue number |
| QueueStatusDisplay.ProgressMonotone | src/components/QueueStatus.tsx:116-125 | for a fixed queue number the bar never moves back as the serving number advances |
| QueueStatusDisplay.Display.constructor | src/components/QueueStatus.tsx:17-24 | no status, spinner on, no error, notifications off, no banner, no timers |
| QueueStatusDisplay.Display.ShowQueueNotification | src/components/QueueStatus.tsx:48-65 | the new state and effects are those of the show transition |
| QueueStatusDisplay.Display.FetchStatus | src/components/QueueStatus.tsx:27-45 | the new state and effects are those of the fetch transition, with one fetch recorded for the panel's number |
| QueueStatusDisplay.Display.EnableNotifications | src/components/QueueStatus.tsx:68-82 | the new state and effects are those of the enable transition, and the platform afterwards is the one after the request |
| QueueStatusDisplay.Display.RunEffect | src/components/QueueStatus.tsx:85-107 | one fetch, then the timers armed as the effect arms them |
| QueueStatusDisplay.Display.Cleanup | src/components/QueueStatus.tsx:108-112 | both intervals are cleared, nothing else changes |
| QueueStatusDisplay.Display.RefreshTick | src/components/QueueStatus.tsx:89-91 | a refresh tick is one more fetch |
| QueueStatusDisplay.Display.NotifyTick | src/components/QueueStatus.tsx:95-105 | the new state and effects are those of the check-tick transition |
| QueueStatusDisplay.Display.HideTimerFires | src/components/QueueStatus.tsx:62-64 | one pending hide timer fires and the banner goes, even if a later alert armed another |
| QRCodeDisplay.IdSuffix | src/components/QRCodeDisplay.tsx:41 | at most four characters, a suffix of the ID: its last four, or all of a shorter ID |
| QRCodeDisplay.DownloadFileName | src/components/QRCodeDisplay.tsx:41 | the file name is the prefix and the queue number, a dash, then the ID's suffix and `.txt`, and nothing else |
| QRCodeDisplay.DownloadFileNameShape | src/components/QRCodeDisplay.tsx:41 | the file name starts with `คิว-` and ends with `.txt`; for a 13-digit ID it ends with the ID's characters 9 to 12 and `.txt` |
| QRCodeDisplay.RoutingLine | src/components/QRCodeDisplay.tsx:26-27 | a routing line is empty exactly when its value is falsy, and otherwise the label followed by the value |
| QRCodeDisplay.JoinLinesContains | src/components/QRCodeDisplay.tsx:20-30 | every line of a multi-line text occurs in it |
| QRCodeDisplay.DownloadLines | src/components/QRCodeDisplay.tsx:20-30 | eleven lines: an empty first line, nine lines indented by six spaces with the rule twice, and a last line of four spaces |
| QRCodeDisplay.DownloadContent | src/components/QRCodeDisplay.tsx:20-30 | the text opens with the template's leading newline |
| QRCodeDisplay.DownloadContentMentions | src/components/QRCodeDisplay.tsx:20-30 | the downloaded text holds the queue number line, the full ID card number line, and each truthy routing line, independently |
| QRCodeDisplay.FirstNewline | src/components/QRCodeDisplay.tsx:62 | a helper for reading the share text: the first newline, or the end |
| QRCodeDisplay.ShareText | src/components/QRCodeDisplay.tsx:62 | the share text starts with the number label and ends with the full ID card number |
| QRCodeDisplay.ShareTextRoundTrip | src/components/QRCodeDisplay.tsx:62 | the shared text loses nothing: its queue number and full ID card number can be read back |
| QRCodeDisplay.DepartmentPanel | src/components/QRCodeDisplay.tsx:154-179 | the placeholder shows exactly when there is no current department; the next department shows only together with a current one; each shows its own value |

Where the specification and the code differ, the model follows the code:
- `registerQueue` in the service does not validate the ID card number. Only the form does.
- `getQueueStatus` does not clamp the position at 0. For a queue number below 1 the position is negative.
- The status panel's `onRefresh` prop is destructured but never called (QueueStatus.tsx:13,16). The page's poll-and-merge (`CheckQueuePosition`) and the widget's position therefore run only at startup and after registration, never on the panel's 30-second polls.
- The sound and permission preferences are component state only and are not persisted.
- The page's notification widget de-duplicates alerts only through its visible-banner flag. It has no "reset once the position goes above 5" rule. The status panel does not de-duplicate at all.

## Left out

- Concurrency: every async handler is run to completion with its replies given up front. The interleavings of `await` are not modelled, so `loading` and `checkingExisting` are never observed `true` between calls. In the source, `checkExistingQueue` launches `handleSubmit` without awaiting it.
- `JSON.stringify`/`JSON.parse`: a slot holds either a serialised record or unparseable text. JSON that parses to something other than a record (such as `"null"`) is not modelled.
- Wall clock, `toISOString`, `toLocaleString('th-TH')`, `refreshTime` and timer durations. Times are passed in as already-formatted strings, and timers are only armed and fired.
- The random ticket `id` (`Math.random().toString(36).substring(2, 11)`). It is a parameter.
- The DOM: `Blob`, object URLs, link clicks, `navigator.share`, the QR code image (`src/utils/qrCodeGenerator.ts` is not part of this model), the rendering markup, and console logging.
- Strings are sequences of characters, not UTF-16 code units. `substring` and `length` on characters outside the Basic Multilingual Plane are not modelled.
- `getQueueByIdCard`: `googleSheetsService` (src/utils/googleSheets.ts), which QueueForm.tsx imports, has no such method, so the call at QueueForm.tsx:57 throws and the catch at :65-68 always goes on to register. The lookup is kept as a parameter. In the code as written `ExistingTicket` never returns a ticket, so no ticket is ever offered, and `UseExistingQueue` and `DismissExisting` never see one.
- `updateQueueStatus`: the shown service does not define it.
- Re-running the widget's position effect when `position` or `notificationsEnabled` changes is the caller's job. It is done by calling `PositionEffect`.
- NotificationSystem.OnPosition: requires the Notification API to be present whenever notifications are enabled. Enabling is impossible without it, so the case where the source would throw on `Notification.permission` is excluded.
- The page's toasts and the status panel's alert text: toasts are recorded as values, and alerts only as effects.
- Numbers: JavaScript's floating-point Numbers are exact reals here, in `CalculateProgress` and in the `Math.random()` draws. Rounding is monotone and the floors stay in range, so the clamps, bounds and monotonicity stated here do not depend on it.
- Text.IntToString: JavaScript Numbers are modelled as unbounded integers; the exponent notation JavaScript uses from 1e21 on, and fractional numbers, are not modelled.
