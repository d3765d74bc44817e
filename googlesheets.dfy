/**
 * The queue authority's client (src/utils/googleSheets.ts) in its demo form:
 * the records it exchanges and the three operations it simulates. The service
 * holds no state; `Math.random()` becomes a `real` draw in [0, 1) passed in,
 * the simulated network delay and the console logging are left out.
 */
module GoogleSheets {
  import opened Wrappers

  /** A ticket's status. `Transferred` is not in the declared union but is relied upon by the form. */
  datatype TicketStatus = Waiting | Processing | Transferred | Completed | Cancelled

  /** One visitor's registration. */
  datatype QueueRecord = QueueRecord(
    id: string,
    idCardNumber: string,
    timestamp: string,
    queueNumber: int,
    status: TicketStatus,
    notificationSent: bool,
    department: Option<string>,
    nextDepartment: Option<string>)

  /** One read of the authority's live state for a queue number. */
  datatype QueueStatus = QueueStatus(
    currentQueueNumber: int,
    yourQueueNumber: int,
    estimatedTimeMinutes: int,
    position: int,
    department: Option<string>,
    nextDepartment: Option<string>,
    waitingCount: Option<int>)

  /** What a failed call was rejected with: an `Error` object with its message, or some other value. */
  datatype Thrown = ErrorObject(message: string) | OtherValue

  /** A reply of the authority: the resolved value or the rejection. */
  type Reply<T> = Result<T, Thrown>

  const SheetId: string := "1NitvjEblAeNQnzvHmJrmlLx6wvB29YGC1x6wGG2MW-k"
  const SheetUrlPrefix: string := "https://docs.google.com/spreadsheets/d/"
  const MinutesPerPosition: int := 5
  const NotifyWithin: int := 5

  /** A value `Math.random()` can return. */
  predicate IsDraw(r: real) {
    0.0 <= r < 1.0
  }

  /** `Math.floor(r * n)`: a draw scaled to one of `0 .. n-1`. */
  function Scaled(r: real, n: nat): (k: int)
    requires IsDraw(r) && n > 0
    ensures 0 <= k < n
  {
    var x := r * n as real;
    ScaleBelow(r, n as real);
    FloorBelow(x, n);
    x.Floor
  }

  lemma ScaleBelow(r: real, m: real)
    requires IsDraw(r) && m > 0.0
    ensures 0.0 <= r * m < m
  {
    var d := 1.0 - r;
    assert d * m > 0.0;
    assert r * m + d * m == m;
  }

  lemma FloorBelow(x: real, n: int)
    requires 0.0 <= x < n as real
    ensures 0 <= x.Floor < n
  {
    assert x.Floor as real <= x;
  }

  /**
   * `registerQueue`: a fresh waiting record for the given ID card. `id` stands for the
   * (at most nine) base-36 characters of one draw, `now` for the ISO timestamp, `draw` for the
   * draw that picks the queue number.
   */
  function RegisterQueue(idCardNumber: string, id: string, now: string, draw: real): (r: QueueRecord)
    requires IsDraw(draw)
    ensures r.idCardNumber == idCardNumber
    ensures r.status == Waiting && !r.notificationSent
    ensures 1 <= r.queueNumber <= 100
    ensures r.id == id && r.timestamp == now
    ensures r.department == None && r.nextDepartment == None
  {
    QueueRecord(id, idCardNumber, now, Scaled(draw, 100) + 1, Waiting, false, None, None)
  }

  /** Every queue number from 1 to 100 is handed out by some draw. */
  lemma RegisterQueueReachesEveryNumber(idCardNumber: string, id: string, now: string, n: int)
    requires 1 <= n <= 100
    ensures IsDraw((n - 1) as real / 100.0)
    ensures RegisterQueue(idCardNumber, id, now, (n - 1) as real / 100.0).queueNumber == n
  {
    var r := (n - 1) as real / 100.0;
    assert r * 100.0 == (n - 1) as real;
  }

  /**
   * `getQueueStatus`: the demo authority reports a serving number up to nine below
   * the asked one, never below 1, and five minutes per position still ahead.
   */
  function GetQueueStatus(queueNumber: int, draw: real): (s: QueueStatus)
    requires IsDraw(draw)
    ensures s.yourQueueNumber == queueNumber
    ensures s.currentQueueNumber >= 1
    ensures s.currentQueueNumber + s.position == queueNumber
    ensures queueNumber >= 1 ==> 0 <= s.position <= 9 && s.position <= queueNumber - 1
    ensures s.position < 0 ==> queueNumber < 1
    ensures s.estimatedTimeMinutes == MinutesPerPosition * s.position
    ensures s.department == None && s.nextDepartment == None && s.waitingCount == None
  {
    var offset := Scaled(draw, 10);
    var current := if queueNumber - offset > 1 then queueNumber - offset else 1;
    var position := queueNumber - current;
    QueueStatus(current, queueNumber, position * MinutesPerPosition, position, None, None, None)
  }

  /** The least of two integers. */
  function Min(a: int, b: int): int {
    if a <= b then a else b
  }

  /** The position the demo reports is the drawn offset, cut down to the numbers ahead of 1. */
  lemma GetQueueStatusPosition(queueNumber: int, draw: real)
    requires IsDraw(draw)
    ensures GetQueueStatus(queueNumber, draw).position == Min(Scaled(draw, 10), queueNumber - 1)
  {
  }

  /** Every offset 0..9 is drawn by some value of `Math.random()`. */
  lemma OffsetReachable(k: int)
    requires 0 <= k < 10
    ensures IsDraw(k as real / 10.0) && Scaled(k as real / 10.0, 10) == k
  {
    assert (k as real / 10.0) * 10.0 == k as real;
  }

  /**
   * `checkNotification`: the result of `getQueueStatus` for the same number decides;
   * a rejected fetch is caught and reads as "do not notify".
   */
  function CheckNotification(fetched: Reply<QueueStatus>): (notify: bool)
    ensures fetched.Failure? ==> !notify
    ensures fetched.Success? ==> (notify <==> fetched.value.position <= NotifyWithin)
  {
    match fetched
    case Success(status) => status.position <= NotifyWithin
    case Failure(_) => false
  }

  /**
   * Against the demo authority the check holds exactly when the drawn offset, cut
   * down to the numbers ahead, is at most 5; for queue numbers up to 6 it always holds.
   */
  lemma DemoCheckNotification(queueNumber: int, draw: real)
    requires IsDraw(draw)
    ensures CheckNotification(Success(GetQueueStatus(queueNumber, draw)))
        <==> Min(Scaled(draw, 10), queueNumber - 1) <= NotifyWithin
    ensures queueNumber <= 6 ==> CheckNotification(Success(GetQueueStatus(queueNumber, draw)))
  {
    GetQueueStatusPosition(queueNumber, draw);
  }

  /** `getSheetUrl`: the spreadsheet's edit page. */
  function GetSheetUrl(): (url: string)
    ensures |url| == |SheetUrlPrefix| + |SheetId| + 5
  {
    SheetUrlPrefix + SheetId + "/edit"
  }

  /** The URL is the fixed prefix, the sheet id, then `/edit`, so the id can be read back from it. */
  lemma SheetUrlNamesSheet()
    ensures GetSheetUrl()[..|SheetUrlPrefix|] == SheetUrlPrefix
    ensures GetSheetUrl()[|SheetUrlPrefix|..|GetSheetUrl()| - 5] == SheetId
    ensures GetSheetUrl()[|GetSheetUrl()| - 5..] == "/edit"
  {
  }
}
