/** The notification aggregate, without the parts that no branch depends on. */
module Notifications {
  import opened Results

  datatype Status = Queued | Sent | Failed

  datatype NoteData = NoteData(status: Status, attempts: nat, failureReason: string)

  /** A notification as NewNotification makes it. */
  const FRESH: NoteData := NoteData(Queued, 0, "")

  function SentNote(n: NoteData): Result<NoteData>
  {
    if n.status == Sent then Err(Conflict) else Ok(n.(status := Sent, failureReason := ""))
  }

  function FailedNote(n: NoteData, reason: string): Result<NoteData>
  {
    if reason == "" then Err(Validation)
    else if n.status == Sent then Err(Conflict)
    else Ok(n.(status := Failed, failureReason := reason))
  }

  /** Which calls are refused, and what the accepted ones leave: sent is final, and only a failure has a reason. */
  lemma MarksAreExact(n: NoteData, reason: string)
    ensures SentNote(n) == (if n.status == Sent then Err(Conflict) else Ok(NoteData(Sent, n.attempts, "")))
    ensures FailedNote(n, reason) == Err(Validation) <==> reason == ""
    ensures FailedNote(n, reason) == Err(Conflict) <==> reason != "" && n.status == Sent
    ensures FailedNote(n, reason).Ok? ==> FailedNote(n, reason).value == NoteData(Failed, n.attempts, reason)
    ensures FailedNote(n, reason).Err? ==> FailedNote(n, reason).error in {Validation, Conflict}
    ensures reason != "" && n.status != Sent ==> SentNote(FailedNote(n, reason).value).Ok?
  {
  }

  datatype Event = NotificationQueued | NotificationSent | NotificationFailed(reason: string)

  class Notification {
    var status: Status
    var attempts: nat
    var failureReason: string
    var pending: seq<Event>

    function Data(): NoteData
      reads this
    {
      NoteData(status, attempts, failureReason)
    }

    /** A notification with the given data and outbox. */
    constructor (data: NoteData, pending: seq<Event>)
      ensures Data() == data && this.pending == pending
    {
      status, attempts, failureReason := data.status, data.attempts, data.failureReason;
      this.pending := pending;
    }

    /** A rejected call changes nothing; an accepted one has the given data and records the event. */
    ghost predicate Answers(answer: Result<NoteData>, event: Event,
                            before: NoteData, outbox: seq<Event>, err: Option<ErrorKind>)
      reads this
    {
      match answer
      case Ok(after) => err.None? && Data() == after && pending == outbox + [event]
      case Err(e) => err == Some(e) && Data() == before && pending == outbox
    }

    method IncrementAttempt()
      modifies this`attempts
      ensures attempts == old(attempts) + 1
    {
      attempts := attempts + 1;
    }

    method MarkSent() returns (err: Option<ErrorKind>)
      modifies this
      ensures Answers(SentNote(old(Data())), NotificationSent, old(Data()), old(pending), err)
    {
      if status != Queued && status != Failed {
        return Some(Conflict);
      }
      status, failureReason := Sent, "";
      pending, err := pending + [NotificationSent], None;
    }

    method MarkFailed(reason: string) returns (err: Option<ErrorKind>)
      modifies this
      ensures Answers(FailedNote(old(Data()), reason), NotificationFailed(reason), old(Data()), old(pending), err)
    {
      if reason == "" {
        return Some(Validation);
      }
      if status == Sent {
        return Some(Conflict);
      }
      status, failureReason := Failed, reason;
      pending, err := pending + [NotificationFailed(reason)], None;
    }
  }
}
