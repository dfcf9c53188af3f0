/** The handlers of the service classes are runs of the protocol's handlers that nobody interrupts: step by
  * step they lead to the same record and the same published messages. */
module Refinement {
  import opened Wrappers
  import opened Commerce
  import opened TaskRecords
  import opened Protocol
  import opened TaskServices
  import opened WorkerServices

  datatype Driven = Driven(phase: Phase, stored: TaskRecord, sent: multiset<QueueMessage>)

  function Step(x: Driven, e: Event, l: Ledger, maxAttempts: int): Option<Driven> {
    match Move(x.phase, e, x.stored, l, maxAttempts)
    case None => None
    case Some(eff) =>
      Some(Driven(eff.next, if eff.write.Some? then eff.write.value else x.stored, x.sent + eff.sends))
  }

  /** The steps of one handler alone. */
  function Drive(x: Driven, events: seq<Event>, l: Ledger, maxAttempts: int): Option<Driven>
    decreases |events|
  {
    if events == [] then Some(x)
    else match Step(x, events[0], l, maxAttempts)
      case None => None
      case Some(y) => Drive(y, events[1..], l, maxAttempts)
  }

  lemma {:induction false} DriveAppend(x: Driven, a: seq<Event>, b: seq<Event>, l: Ledger, maxAttempts: int)
    requires Drive(x, a, l, maxAttempts).Some?
    ensures Drive(x, a + b, l, maxAttempts) == Drive(Drive(x, a, l, maxAttempts).value, b, l, maxAttempts)
    decreases |a|
  {
    if a == [] {
      assert a + b == b;
    } else {
      assert (a + b)[1..] == a[1..] + b;
      DriveAppend(Step(x, a[0], l, maxAttempts).value, a[1..], b, l, maxAttempts);
    }
  }

  lemma NothingSent(sent: multiset<QueueMessage>)
    ensures sent + multiset{} == sent && multiset{} + sent == sent
  {
  }

  lemma DriveTwo(x: Driven, e: Event, f: Event, l: Ledger, maxAttempts: int)
    requires Step(x, e, l, maxAttempts).Some?
    ensures Drive(x, [e], l, maxAttempts) == Step(x, e, l, maxAttempts)
    ensures Drive(x, [e, f], l, maxAttempts) == Step(Step(x, e, l, maxAttempts).value, f, l, maxAttempts)
  {
    assert [e, f][1..] == [f] && [e][1..] == [] && [f][1..] == [];
    if y: Driven :| Step(Step(x, e, l, maxAttempts).value, f, l, maxAttempts) == Some(y) {
      assert Drive(y, [], l, maxAttempts) == Some(y);
    }
  }

  /** How a publish with this fate goes, and the save that follows it when it raised. */
  function PublishEvents(fate: Fate): seq<Event> {
    match fate
    case Sent => [Proceed]
    case NotSent => [Raise(OtherError), Proceed]
    case SentButRaised => [RaiseAfter(OtherError), Proceed]
  }

  function Published(m: QueueMessage, fate: Fate): multiset<QueueMessage> {
    if fate.NotSent? then multiset{} else multiset{m}
  }

  function RunEvent(end: RunEnd): Event {
    match end
    case Returned(outcome) => RunReturn(outcome)
    case Raised(f) => RunRaise(f)
  }

  /** From the lease to the last save: get the record, save it as running, run the graph, and save the result;
    * or catch the exception, read the record again, and save and publish the retry. */
  function WorkerScript(task: TaskRecord, m: QueueMessage, end: RunEnd, fate: Fate, maxAttempts: int): seq<Event> {
    [Proceed, Proceed] + [RunEvent(end), Proceed]
    + (if end.Returned? then []
       else [Proceed] + (if AfterFailure(task, m, true, end.failure, maxAttempts).status.Retrying? then PublishEvents(fate) else []))
  }

  lemma AcceptSteps(d: Delivery, task: TaskRecord, l: Ledger, maxAttempts: int)
    requires Accepts(task, d.message)
    ensures var running := MarkRunning(task, d.message);
      Drive(Driven(Leased(d), task, multiset{}), [Proceed, Proceed], l, maxAttempts)
        == Some(Driven(Started(d, running), running, multiset{}))
  {
    NothingSent(multiset{});
    DriveTwo(Driven(Leased(d), task, multiset{}), Proceed, Proceed, l, maxAttempts);
  }

  lemma ReturnSteps(d: Delivery, task: TaskRecord, outcome: RunOutcome, l: Ledger, maxAttempts: int)
    ensures Drive(Driven(Started(d, task), task, multiset{}), [RunReturn(outcome), Proceed], l, maxAttempts)
         == Some(Driven(Saved(d), Finished(task, outcome), multiset{}))
  {
    NothingSent(multiset{});
    DriveTwo(Driven(Started(d, task), task, multiset{}), RunReturn(outcome), Proceed, l, maxAttempts);
  }

  lemma RaiseSteps(d: Delivery, task: TaskRecord, f: Failure, l: Ledger, maxAttempts: int)
    ensures Drive(Driven(Started(d, task), task, multiset{}), [RunRaise(f), Proceed], l, maxAttempts)
         == Some(Driven(FailureRead(d, AfterFailure(task, d.message, true, f, maxAttempts), RetryMessage(d.message, true)),
                        task, multiset{}))
  {
    NothingSent(multiset{});
    DriveTwo(Driven(Started(d, task), task, multiset{}), RunRaise(f), Proceed, l, maxAttempts);
  }

  lemma FailureSteps(d: Delivery, task: TaskRecord, failed: TaskRecord, retry: QueueMessage, l: Ledger, maxAttempts: int)
    ensures Drive(Driven(FailureRead(d, failed, retry), task, multiset{}), [Proceed], l, maxAttempts)
         == Some(Driven(if failed.status.Retrying?
                        then Retrying'(d, PublishFailed(failed, ResumeInteraction(retry)), retry) else Settling(d),
                        failed, multiset{}))
  {
    NothingSent(multiset{});
    DriveTwo(Driven(FailureRead(d, failed, retry), task, multiset{}), Proceed, Proceed, l, maxAttempts);
  }

  lemma RetrySteps(d: Delivery, saved: TaskRecord, failed: TaskRecord, m: QueueMessage, fate: Fate, l: Ledger, maxAttempts: int)
    ensures Drive(Driven(Retrying'(d, failed, m), saved, multiset{}), PublishEvents(fate), l, maxAttempts)
         == Some(Driven(Settling(d), if fate.Sent? then saved else failed, Published(m, fate)))
  {
    NothingSent(Published(m, fate));
    NothingSent(multiset{});
    DriveTwo(Driven(Retrying'(d, failed, m), saved, multiset{}), PublishEvents(fate)[0], Proceed, l, maxAttempts);
  }

  lemma PublishSteps(saved: TaskRecord, failed: TaskRecord, m: QueueMessage, fate: Fate, l: Ledger, maxAttempts: int)
    ensures Drive(Driven(Publishing(failed, m), saved, multiset{}), PublishEvents(fate), l, maxAttempts)
         == Some(Driven(Done, if fate.Sent? then saved else failed, Published(m, fate)))
  {
    NothingSent(Published(m, fate));
    NothingSent(multiset{});
    DriveTwo(Driven(Publishing(failed, m), saved, multiset{}), PublishEvents(fate)[0], Proceed, l, maxAttempts);
  }

  /** A worker that nobody interrupts leaves the record as `WorkerService.HandleMessage` does, and sends the
    * retry exactly when that does. */
  lemma WorkerRefines(d: Delivery, task: TaskRecord, end: RunEnd, fate: Fate, l: Ledger, maxAttempts: int)
    requires Accepts(task, d.message)
    ensures var m := d.message;
      var last := Drive(Driven(Leased(d), task, multiset{}), WorkerScript(task, m, end, fate, maxAttempts), l, maxAttempts);
      && last.Some?
      && last.value.stored == Handled(task, m, end, fate, maxAttempts)
      && last.value.phase == (if end.Returned? then Saved(d) else Settling(d))
      && last.value.sent == HandledSends(task, m, end, fate, maxAttempts)
  {
    var m, start := d.message, Driven(Leased(d), task, multiset{});
    var running := MarkRunning(task, m);
    var rest := WorkerScript(task, m, end, fate, maxAttempts)[4..];
    var script := WorkerScript(task, m, end, fate, maxAttempts);
    assert script == [Proceed, Proceed] + [RunEvent(end), Proceed] + rest;
    AcceptSteps(d, task, l, maxAttempts);
    DriveAppend(start, [Proceed, Proceed], [RunEvent(end), Proceed], l, maxAttempts);
    match end
    case Returned(outcome) =>
      ReturnSteps(d, running, outcome, l, maxAttempts);
      assert rest == [];
      assert script == [Proceed, Proceed] + [RunEvent(end), Proceed];
    case Raised(f) =>
      RaiseSteps(d, running, f, l, maxAttempts);
      DriveAppend(start, [Proceed, Proceed] + [RunEvent(end), Proceed], rest, l, maxAttempts);
      var failed, retry := AfterFailure(task, m, true, f, maxAttempts), RetryMessage(m, true);
      assert failed == AfterFailure(running, m, true, f, maxAttempts);
      FailureSteps(d, running, failed, retry, l, maxAttempts);
      var read := Driven(FailureRead(d, failed, retry), running, multiset{});
      var more := rest[1..];
      assert rest == [Proceed] + more;
      DriveAppend(read, [Proceed], more, l, maxAttempts);
      RetrySteps(d, failed, PublishFailed(failed, ResumeInteraction(retry)), retry, fate, l, maxAttempts);
  }

  /** The same for the API: input, approval and resume save the record and publish its message, and a publish
    * that raises leaves a record that still stands for that message. */
  lemma ApiRefines(p: Phase, stored: TaskRecord, fate: Fate, l: Ledger, maxAttempts: int) returns (saved: TaskRecord, failed: TaskRecord)
    requires match p
      case SubmittingInput(_, _) => stored.status.AwaitingInput?
      case ApprovalRecorded(task, _) => stored.status == ExpectedStatus(task)
      case Resuming(_) => true
      case _ => false
    ensures match p
      case SubmittingInput(task, productId) => saved == InputSubmitted(task, productId)
      case ApprovalRecorded(task, approvalId) => saved == ApprovalSubmitted(task, approvalId)
      case Resuming(task) => saved == Resumed(task) && PendingMessage(saved) == ResumeMessage(task)
      case _ => true
    ensures Recovers(failed, PendingMessage(saved))
    ensures Drive(Driven(p, stored, multiset{}), [Proceed] + PublishEvents(fate), l, maxAttempts)
         == Some(Driven(Done, if fate.Sent? then saved else failed, Published(PendingMessage(saved), fate)))
  {
    match p {
      case SubmittingInput(task, productId) =>
        saved := InputSubmitted(task, productId);
        failed := PublishFailed(saved, Some(InputResume(productId)));
      case ApprovalRecorded(task, approvalId) =>
        saved := ApprovalSubmitted(task, approvalId);
        failed := PublishFailed(saved, Some(ApprovalResume(approvalId)));
      case Resuming(task) =>
        saved, failed := Resumed(task), ResumeFailed(task);
    }
    var x := Driven(p, stored, multiset{});
    NothingSent(multiset{});
    assert Step(x, Proceed, l, maxAttempts) == Some(Driven(Publishing(failed, PendingMessage(saved)), saved, multiset{}));
    DriveTwo(x, Proceed, Proceed, l, maxAttempts);
    DriveAppend(x, [Proceed], PublishEvents(fate), l, maxAttempts);
    PublishSteps(saved, failed, PendingMessage(saved), fate, l, maxAttempts);
  }
}
