/**
 * The registration form (src/components/QueueForm.tsx): the ID card number
 * check and input sanitiser, and the handlers that look up an existing ticket,
 * register a new one and hand the chosen ticket to the page.
 *
 * The form is an object whose fields are the component's state. The toasts it
 * shows, the calls it makes to the authority and the tickets it passes to
 * `onQueueRegistered` are recorded, in order, in three logs. Replies of the
 * authority are parameters: `getQueueByIdCard` is not part of this model and is
 * represented only by the reply it gives.
 */
module QueueForm {
  import opened Wrappers
  import opened Text
  import opened GoogleSheets

  /** A Thai national ID card number has 13 digits. */
  const IdLength: nat := 13

  /** `/^\d{n}$/.test(s)`, matched character by character. */
  function MatchesDigits(s: string, n: nat): (m: bool)
    ensures m <==> |s| == n && AllDigits(s)
  {
    if s == [] then n == 0
    else n > 0 && IsDigit(s[0]) && MatchesDigits(s[1..], n - 1)
  }

  /** `validateIdCardNumber`: exactly 13 characters, each of them a decimal digit. */
  function ValidIdCardNumber(id: string): (ok: bool)
    ensures ok <==> |id| == IdLength && AllDigits(id)
  {
    MatchesDigits(id, IdLength)
  }

  /** `value.replace(/\D/g, '')`: every character that is not a digit is dropped. */
  function StripNonDigits(s: string): (r: string)
    ensures AllDigits(r) && |r| <= |s|
    ensures AllDigits(s) ==> r == s
    ensures !AllDigits(s) ==> |r| < |s|
  {
    if s == [] then []
    else (if IsDigit(s[0]) then [s[0]] else []) + StripNonDigits(s[1..])
  }

  /** Sanitising twice is sanitising once. */
  lemma StripNonDigitsIdempotent(s: string)
    ensures StripNonDigits(StripNonDigits(s)) == StripNonDigits(s)
  {
  }

  /** The sanitiser works piecewise: text pasted after other text is sanitised on its own. */
  lemma {:induction false} StripNonDigitsConcat(a: string, b: string)
    ensures StripNonDigits(a + b) == StripNonDigits(a) + StripNonDigits(b)
  {
    if a != [] {
      assert (a + b)[1..] == a[1..] + b;
      StripNonDigitsConcat(a[1..], b);
    } else {
      assert a + b == b;
    }
  }

  /** The statuses for which an existing ticket is offered instead of a new registration. */
  predicate IsActive(status: TicketStatus)
    ensures IsActive(status) <==> status in {Waiting, Processing, Transferred}
  {
    match status
    case Waiting | Processing | Transferred => true
    case Completed | Cancelled => false
  }

  /**
   * The decision of `checkExistingQueue`: the ticket to offer, if the lookup found
   * an active one. Anything else (no ticket, a finished one, a failed lookup) means
   * registering anew.
   */
  function ExistingTicket(lookup: Reply<Option<QueueRecord>>): (found: Option<QueueRecord>)
    ensures found.Some? <==> lookup.Success? && lookup.value.Some? && IsActive(lookup.value.value.status)
    ensures found.Some? ==> found == lookup.value
  {
    match lookup
    case Success(Some(record)) => if IsActive(record.status) then Some(record) else None
    case Success(None) => None
    case Failure(_) => None
  }

  /** A toast message. */
  datatype Toast = Toast(title: string, description: string, destructive: bool)

  /** A call made to the queue authority. */
  datatype Request = LookupByIdCard(idCardNumber: string) | Register(idCardNumber: string)

  const InvalidIdToast: Toast :=
    Toast("กรุณาตรวจสอบเลขบัตรประชาชน", "เลขบัตรประชาชนต้องมี 13 หลัก", true)

  const RegisterFallbackMessage: string := "ไม่สามารถลงทะเบียนได้ กรุณาลองใหม่อีกครั้ง"

  const RegisteredPrefix: string := "คุณได้รับคิวหมายเลข "

  /** The success toast: not destructive, and its text reads back as the queue number after its prefix. */
  function RegisteredToast(queueNumber: int): (t: Toast)
    ensures !t.destructive
    ensures |t.description| > |RegisteredPrefix| && t.description[..|RegisteredPrefix|] == RegisteredPrefix
    ensures ParseInt(t.description[|RegisteredPrefix|..]) == Some(queueNumber)
  {
    var d := RegisteredPrefix + IntToString(queueNumber);
    assert d[|RegisteredPrefix|..] == IntToString(queueNumber);
    IntToStringRoundTrip(queueNumber);
    Toast("ลงทะเบียนสำเร็จ", d, false)
  }

  /** A failed registration shows the error's message, or a fixed text when what was thrown is not an `Error`. */
  function FailureToast(e: Thrown): (t: Toast)
    ensures e.ErrorObject? ==> t.description == e.message
    ensures e.OtherValue? ==> t.description == RegisterFallbackMessage
    ensures t.destructive
  {
    Toast("เกิดข้อผิดพลาด", match e case ErrorObject(m) => m case OtherValue => RegisterFallbackMessage, true)
  }

  const ExistingPrefix: string := "คุณมีคิวหมายเลข "
  const ExistingSuffix: string := " อยู่แล้วในระบบ"

  /** The toast for a taken-over ticket: not destructive, and the number between its fixed texts reads back. */
  function ExistingToast(queueNumber: int): (t: Toast)
    ensures !t.destructive
    ensures |t.description| > |ExistingPrefix| + |ExistingSuffix|
    ensures t.description[..|ExistingPrefix|] == ExistingPrefix
    ensures t.description[|t.description| - |ExistingSuffix|..] == ExistingSuffix
    ensures ParseInt(t.description[|ExistingPrefix|..|t.description| - |ExistingSuffix|]) == Some(queueNumber)
  {
    var q := IntToString(queueNumber);
    var d := ExistingPrefix + q + ExistingSuffix;
    assert d[|ExistingPrefix|..|d| - |ExistingSuffix|] == q;
    assert d[|d| - |ExistingSuffix|..] == ExistingSuffix;
    IntToStringRoundTrip(queueNumber);
    Toast("ดึงข้อมูลคิวสำเร็จ", d, false)
  }

  /** The success toast tells the visitor which number they got: different numbers give different toasts. */
  lemma RegisteredToastNamesNumber(a: int, b: int)
    requires RegisteredToast(a) == RegisteredToast(b)
    ensures a == b
  {
    var da, db := RegisteredToast(a).description, RegisteredToast(b).description;
    assert da[|RegisteredPrefix|..] == IntToString(a);
    assert db[|RegisteredPrefix|..] == IntToString(b);
    IntToStringInjective(a, b);
  }

  /** The registration form's state and the effects it has had so far. */
  class Form {
    var idCardNumber: string
    var loading: bool
    var checkingExisting: bool
    var existingQueueData: Option<QueueRecord>
    /** Toasts shown, oldest first. */
    var toasts: seq<Toast>
    /** Calls made to the authority, oldest first. */
    var requests: seq<Request>
    /** The tickets passed to `onQueueRegistered`, oldest first. */
    var registered: seq<QueueRecord>

    /**
     * Between handlers the stored number is digits only and at most 13 long, and
     * neither spinner is on.
     */
    ghost predicate Valid()
      reads this
    {
      |idCardNumber| <= IdLength && AllDigits(idCardNumber) && !loading && !checkingExisting
    }

    constructor ()
      ensures Valid()
      ensures idCardNumber == "" && existingQueueData == None
      ensures toasts == [] && requests == [] && registered == []
    {
      idCardNumber := "";
      loading := false;
      checkingExisting := false;
      existingQueueData := None;
      toasts := [];
      requests := [];
      registered := [];
    }

    /**
     * `handleInputChange`: the sanitised input is taken only if it fits in 13 digits,
     * and taking it discards any ticket offered so far.
     */
    method HandleInputChange(raw: string)
      requires Valid()
      modifies this
      ensures Valid()
      ensures var value := StripNonDigits(raw);
        if |value| <= IdLength then idCardNumber == value && existingQueueData == None
        else idCardNumber == old(idCardNumber) && existingQueueData == old(existingQueueData)
      ensures toasts == old(toasts) && requests == old(requests) && registered == old(registered)
    {
      var value := StripNonDigits(raw);
      if |value| <= IdLength {
        idCardNumber := value;
        if existingQueueData.Some? {
          existingQueueData := None;
        }
      }
    }

    /**
     * `handleSubmit`: an invalid number only shows the validation toast. A valid one is
     * sent to `registerQueue`; its ticket goes to `onQueueRegistered` with a success
     * toast, its rejection only shows an error toast.
     */
    method HandleSubmit(reply: Reply<QueueRecord>)
      requires Valid()
      modifies this
      ensures Valid()
      ensures idCardNumber == old(idCardNumber) && existingQueueData == old(existingQueueData)
      ensures !ValidIdCardNumber(idCardNumber) ==>
        toasts == old(toasts) + [InvalidIdToast] && requests == old(requests) && registered == old(registered)
      ensures ValidIdCardNumber(idCardNumber) ==>
        requests == old(requests) + [Register(idCardNumber)] &&
        match reply
        case Success(record) =>
          toasts == old(toasts) + [RegisteredToast(record.queueNumber)] && registered == old(registered) + [record]
        case Failure(e) =>
          toasts == old(toasts) + [FailureToast(e)] && registered == old(registered)
    {
      if !ValidIdCardNumber(idCardNumber) {
        toasts := toasts + [InvalidIdToast];
        return;
      }
      loading := true;
      requests := requests + [Register(idCardNumber)];
      match reply {
        case Success(record) =>
          toasts := toasts + [RegisteredToast(record.queueNumber)];
          registered := registered + [record];
        case Failure(e) =>
          toasts := toasts + [FailureToast(e)];
      }
      loading := false;
    }

    /**
     * `checkExistingQueue`: after the same validation, looks the number up. An active
     * ticket found is offered and nothing is registered; otherwise the offer is cleared
     * (a failed lookup leaves it as it was) and registration proceeds as in `HandleSubmit`.
     */
    method CheckExistingQueue(lookup: Reply<Option<QueueRecord>>, reply: Reply<QueueRecord>)
      requires Valid()
      modifies this
      ensures Valid()
      ensures idCardNumber == old(idCardNumber)
      ensures !ValidIdCardNumber(idCardNumber) ==>
        toasts == old(toasts) + [InvalidIdToast] && requests == old(requests) &&
        registered == old(registered) && existingQueueData == old(existingQueueData)
      ensures ValidIdCardNumber(idCardNumber) && ExistingTicket(lookup).Some? ==>
        existingQueueData == ExistingTicket(lookup) &&
        requests == old(requests) + [LookupByIdCard(idCardNumber)] &&
        toasts == old(toasts) && registered == old(registered)
      ensures ValidIdCardNumber(idCardNumber) && ExistingTicket(lookup).None? ==>
        existingQueueData == (if lookup.Success? then None else old(existingQueueData)) &&
        requests == old(requests) + [LookupByIdCard(idCardNumber), Register(idCardNumber)] &&
        match reply
        case Success(record) =>
          toasts == old(toasts) + [RegisteredToast(record.queueNumber)] && registered == old(registered) + [record]
        case Failure(e) =>
          toasts == old(toasts) + [FailureToast(e)] && registered == old(registered)
    {
      if !ValidIdCardNumber(idCardNumber) {
        toasts := toasts + [InvalidIdToast];
        return;
      }
      checkingExisting := true;
      assert old(requests) + [LookupByIdCard(idCardNumber)] + [Register(idCardNumber)] ==
        old(requests) + [LookupByIdCard(idCardNumber), Register(idCardNumber)];
      requests := requests + [LookupByIdCard(idCardNumber)];
      match lookup {
        case Success(queueData) =>
          if queueData.Some? && IsActive(queueData.value.status) {
            existingQueueData := queueData;
          } else {
            existingQueueData := None;
            checkingExisting := false;
            HandleSubmit(reply);
          }
        case Failure(_) =>
          checkingExisting := false;
          HandleSubmit(reply);
      }
      checkingExisting := false;
    }

    /** `useExistingQueue`: the offered ticket, if any, goes to `onQueueRegistered` with a toast. */
    method UseExistingQueue()
      requires Valid()
      modifies this
      ensures Valid()
      ensures idCardNumber == old(idCardNumber) && existingQueueData == old(existingQueueData)
      ensures requests == old(requests)
      ensures existingQueueData.Some? ==>
        registered == old(registered) + [existingQueueData.value] &&
        toasts == old(toasts) + [ExistingToast(existingQueueData.value.queueNumber)]
      ensures existingQueueData.None? ==> registered == old(registered) && toasts == old(toasts)
    {
      if existingQueueData.Some? {
        registered := registered + [existingQueueData.value];
        toasts := toasts + [ExistingToast(existingQueueData.value.queueNumber)];
      }
    }

    /** The "cancel and register anew" button: the offer is withdrawn and nothing else happens. */
    method DismissExisting()
      requires Valid()
      modifies this
      ensures Valid()
      ensures existingQueueData == None
      ensures idCardNumber == old(idCardNumber)
      ensures toasts == old(toasts) && requests == old(requests) && registered == old(registered)
    {
      existingQueueData := None;
    }
  }
}
