/**
 * The page (src/pages/Index.tsx): the three-step journey form → ticket (QR
 * code) → status, the ticket kept under the `queueData` storage key, and what
 * a status poll writes back into that ticket.
 *
 * The slot is modelled as an optional stored item that either serialises a
 * record or is text that does not parse; `JSON.stringify`/`JSON.parse` are not
 * modelled beyond that distinction. `window.confirm` is the `confirmed`
 * parameter and each `getQueueStatus` reply is a parameter.
 */
module Index {
  import opened Wrappers
  import opened Text
  import opened GoogleSheets

  /** `currentStep`. */
  datatype Step = FormStep | QrCodeStep | StatusStep

  /** What `localStorage.getItem('queueData')` can hold. */
  datatype StoredItem = Serialized(record: QueueRecord) | Garbage(text: string)

  /** The three ways the startup read can end. */
  datatype Loaded = NothingSaved | Restored(record: QueueRecord) | Unreadable

  /**
   * The startup read: nothing stored, or an empty string (falsy), is skipped; text
   * that does not parse is reported so that it can be removed.
   */
  function Load(slot: Option<StoredItem>): (l: Loaded)
    ensures l.Restored? <==> slot.Some? && slot.value.Serialized?
    ensures l.Restored? ==> slot == Some(Serialized(l.record))
    ensures l.NothingSaved? <==> slot == None || slot == Some(Garbage(""))
  {
    match slot
    case None => NothingSaved
    case Some(Serialized(record)) => Restored(record)
    case Some(Garbage(text)) => if text == "" then NothingSaved else Unreadable
  }

  /** A saved ticket is read back as exactly that ticket. */
  lemma SaveLoadRoundTrip(t: QueueRecord)
    ensures Load(Some(Serialized(t))) == Restored(t)
  {
  }

  /** The poll reports some routing: `status.department || status.nextDepartment`. */
  predicate ReportsDepartment(s: QueueStatus)
    ensures !ReportsDepartment(s) <==> s.department in {None, Some("")} && s.nextDepartment in {None, Some("")}
  {
    Truthy(s.department) || Truthy(s.nextDepartment)
  }

  /**
   * The spread `{...prev, department: s.department || prev.department, nextDepartment: ...}`:
   * a reported (truthy) value overwrites, anything else keeps the ticket's own.
   */
  function MergeDepartments(prev: QueueRecord, s: QueueStatus): (r: QueueRecord)
    ensures Truthy(s.department) ==> r.department == s.department
    ensures !Truthy(s.department) ==> r.department == prev.department
    ensures Truthy(s.nextDepartment) ==> r.nextDepartment == s.nextDepartment
    ensures !Truthy(s.nextDepartment) ==> r.nextDepartment == prev.nextDepartment
    ensures r.(department := prev.department, nextDepartment := prev.nextDepartment) == prev
  {
    prev.(department := OrElse(s.department, prev.department),
          nextDepartment := OrElse(s.nextDepartment, prev.nextDepartment))
  }

  /** Merging the same report twice changes nothing more. */
  lemma MergeIdempotent(prev: QueueRecord, s: QueueStatus)
    ensures MergeDepartments(MergeDepartments(prev, s), s) == MergeDepartments(prev, s)
  {
  }

  /**
   * The functional update of `queueData` after a successful poll: nothing when the poll
   * reports no routing or there is no ticket, the merge otherwise.
   */
  function RefreshTicket(ticket: Option<QueueRecord>, s: QueueStatus): (r: Option<QueueRecord>)
    ensures r.Some? <==> ticket.Some?
    ensures !ReportsDepartment(s) ==> r == ticket
    ensures ticket.Some? && ReportsDepartment(s) ==> r == Some(MergeDepartments(ticket.value, s))
    ensures ticket.Some? ==> r.value.(department := ticket.value.department,
                                      nextDepartment := ticket.value.nextDepartment) == ticket.value
  {
    if !ReportsDepartment(s) then ticket
    else match ticket
      case None => None
      case Some(prev) => Some(MergeDepartments(prev, s))
  }

  /** A run of successful polls, applied in order. */
  function RefreshAll(ticket: Option<QueueRecord>, polls: seq<QueueStatus>): (r: Option<QueueRecord>)
    ensures r.Some? <==> ticket.Some?
    ensures (forall i :: 0 <= i < |polls| ==> !ReportsDepartment(polls[i])) ==> r == ticket
    decreases |polls|
  {
    if polls == [] then ticket else RefreshAll(RefreshTicket(ticket, polls[0]), polls[1..])
  }

  /**
   * However many polls are merged, the ticket stays present and keeps its identity, number,
   * status and timestamps; its department is its own or one some poll reported.
   */
  lemma {:induction false} RefreshAllKeepsTicket(t: QueueRecord, polls: seq<QueueStatus>)
    ensures RefreshAll(Some(t), polls).Some?
    ensures var r := RefreshAll(Some(t), polls).value;
      r.(department := t.department, nextDepartment := t.nextDepartment) == t &&
      (r.department == t.department || exists i :: 0 <= i < |polls| && polls[i].department == r.department)
    decreases |polls|
  {
    if polls != [] {
      var t' := RefreshTicket(Some(t), polls[0]).value;
      RefreshAllKeepsTicket(t', polls[1..]);
      var r := RefreshAll(Some(t), polls).value;
      if r.department != t'.department {
        var i :| 0 <= i < |polls[1..]| && polls[1..][i].department == r.department;
        assert polls[i + 1].department == r.department;
      } else if r.department != t.department {
        assert polls[0].department == r.department;
      }
    }
  }

  /** What the main area renders. */
  datatype View = FormView | TicketView(record: QueueRecord) | StatusView(queueNumber: int) | NoTicketView

  /** `renderMainContent`: the ticket and status steps need a ticket, and say so when there is none. */
  function Screen(step: Step, queueData: Option<QueueRecord>): (v: View)
    ensures step == FormStep <==> v == FormView
    ensures v == NoTicketView <==> step != FormStep && queueData.None?
    ensures v.TicketView? ==> step == QrCodeStep && queueData == Some(v.record)
    ensures v.StatusView? ==> step == StatusStep && queueData.Some? && v.queueNumber == queueData.value.queueNumber
  {
    match step
    case FormStep => FormView
    case QrCodeStep => if queueData.Some? then TicketView(queueData.value) else NoTicketView
    case StatusStep => if queueData.Some? then StatusView(queueData.value.queueNumber) else NoTicketView
  }

  /** The page's state. */
  class Controller {
    var currentStep: Step
    var queueData: Option<QueueRecord>
    var queuePosition: Option<int>
    /** The `queueData` storage slot. */
    var storage: Option<StoredItem>
    /** Queue numbers sent to `getQueueStatus`, oldest first. */
    var polls: seq<int>

    /** Whenever the page holds a ticket, the slot holds the same ticket. */
    ghost predicate Synced()
      reads this
    {
      queueData.Some? ==> storage == Some(Serialized(queueData.value))
    }

    /** The page as first rendered, over whatever the slot holds. */
    constructor (saved: Option<StoredItem>)
      ensures Synced()
      ensures currentStep == FormStep && queueData == None && queuePosition == None
      ensures storage == saved && polls == []
    {
      currentStep := FormStep;
      queueData := None;
      queuePosition := None;
      storage := saved;
      polls := [];
    }

    /**
     * `checkQueuePosition`: a successful poll records the position and merges routing into
     * the ticket, saving the merged ticket; a failed poll changes nothing.
     */
    method CheckQueuePosition(queueNumber: int, reply: Reply<QueueStatus>)
      requires Synced()
      modifies this
      ensures Synced()
      ensures polls == old(polls) + [queueNumber] && currentStep == old(currentStep)
      ensures reply.Failure? ==>
        queueData == old(queueData) && queuePosition == old(queuePosition) && storage == old(storage)
      ensures reply.Success? ==>
        queuePosition == Some(reply.value.position) &&
        queueData == RefreshTicket(old(queueData), reply.value) &&
        storage == (if ReportsDepartment(reply.value) && old(queueData).Some?
                    then Some(Serialized(queueData.value)) else old(storage))
    {
      polls := polls + [queueNumber];
      match reply {
        case Success(status) =>
          queuePosition := Some(status.position);
          if Truthy(status.department) || Truthy(status.nextDepartment) {
            if queueData.Some? {
              var prevData := queueData.value;
              var updatedData := prevData.(department := OrElse(status.department, prevData.department),
                                           nextDepartment := OrElse(status.nextDepartment, prevData.nextDepartment));
              storage := Some(Serialized(updatedData));
              queueData := Some(updatedData);
            }
          }
        case Failure(_) =>
      }
    }

    /**
     * The mount effect: a saved ticket is taken as it is, the status step is shown and one
     * poll is made; unreadable text is removed; an empty slot leaves everything as it was.
     */
    method Startup(reply: Reply<QueueStatus>)
      requires Synced()
      modifies this
      ensures Synced()
      ensures Load(old(storage)).NothingSaved? ==>
        currentStep == old(currentStep) && queueData == old(queueData) &&
        queuePosition == old(queuePosition) && storage == old(storage) && polls == old(polls)
      ensures Load(old(storage)).Unreadable? ==>
        storage == None && currentStep == old(currentStep) && queueData == old(queueData) &&
        queuePosition == old(queuePosition) && polls == old(polls)
      ensures Load(old(storage)).Restored? ==>
        var t := Load(old(storage)).record;
        currentStep == StatusStep && polls == old(polls) + [t.queueNumber] &&
        queueData == (if reply.Success? then RefreshTicket(Some(t), reply.value) else Some(t)) &&
        queuePosition == (if reply.Success? then Some(reply.value.position) else old(queuePosition))
    {
      var saved := storage;
      match saved {
        case None =>
        case Some(item) =>
          match item {
            case Garbage(text) =>
              if text != "" {
                storage := None;
              }
            case Serialized(parsedData) =>
              queueData := Some(parsedData);
              currentStep := StatusStep;
              CheckQueuePosition(parsedData.queueNumber, reply);
          }
      }
    }

    /** `handleQueueRegistered`: the ticket is kept and saved, the QR step is shown and one poll is made. */
    method HandleQueueRegistered(data: QueueRecord, reply: Reply<QueueStatus>)
      requires Synced()
      modifies this
      ensures Synced()
      ensures currentStep == QrCodeStep && polls == old(polls) + [data.queueNumber]
      ensures queueData == (if reply.Success? then RefreshTicket(Some(data), reply.value) else Some(data))
      ensures storage == Some(Serialized(queueData.value))
      ensures queuePosition == (if reply.Success? then Some(reply.value.position) else old(queuePosition))
    {
      queueData := Some(data);
      currentStep := QrCodeStep;
      storage := Some(Serialized(data));
      CheckQueuePosition(data.queueNumber, reply);
    }

    /**
     * `handleBackToForm`: from the status step with a ticket the visitor is asked to confirm;
     * confirming forgets the ticket everywhere, declining changes nothing. In any other
     * situation the form is shown and the ticket is kept.
     */
    method HandleBackToForm(confirmed: bool) returns (asked: bool)
      requires Synced()
      modifies this
      ensures Synced()
      ensures asked <==> old(currentStep) == StatusStep && old(queueData).Some?
      ensures asked && confirmed ==>
        storage == None && queueData == None && queuePosition == None && currentStep == FormStep
      ensures asked && !confirmed ==>
        storage == old(storage) && queueData == old(queueData) &&
        queuePosition == old(queuePosition) && currentStep == old(currentStep)
      ensures !asked ==>
        currentStep == FormStep && storage == old(storage) &&
        queueData == old(queueData) && queuePosition == old(queuePosition)
      ensures polls == old(polls)
    {
      asked := false;
      if currentStep == StatusStep && queueData.Some? {
        asked := true;
        if confirmed {
          storage := None;
          queueData := None;
          queuePosition := None;
          currentStep := FormStep;
        }
      } else {
        currentStep := FormStep;
      }
    }

    /** `handleShowQRCode`: only the step changes. */
    method HandleShowQRCode()
      requires Synced()
      modifies this
      ensures Synced()
      ensures currentStep == QrCodeStep
      ensures queueData == old(queueData) && queuePosition == old(queuePosition)
      ensures storage == old(storage) && polls == old(polls)
    {
      currentStep := QrCodeStep;
    }

    /** `handleShowStatus`: only the step changes. */
    method HandleShowStatus()
      requires Synced()
      modifies this
      ensures Synced()
      ensures currentStep == StatusStep
      ensures queueData == old(queueData) && queuePosition == old(queuePosition)
      ensures storage == old(storage) && polls == old(polls)
    {
      currentStep := StatusStep;
    }
  }
}
