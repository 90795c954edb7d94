/**
  The job object itself: a passive container of one unit of deferred work,
  whose fields its methods update in place. Every mutator is proved to do what
  `JobModel.Step` says, so the lemmas of `JobModel` hold of any job.
 */
module Jobs {
  import opened JobModel

  /**
    A thrown exception, as the job sees it: an object whose fields may still
    change after it has been recorded.
   */
  class Exception {
    var code: Code
    var message: string
    var file: string
    var line: int
    var trace: string

    constructor (code: Code, message: string, file: string, line: int, trace: string)
      ensures Snapshot() == ExceptionRecord(code, message, file, line, trace)
    {
      this.code := code;
      this.message := message;
      this.file := file;
      this.line := line;
      this.trace := trace;
    }

    /** The five values `recordException` copies out of this exception. */
    function Snapshot(): ExceptionRecord
      reads this
    {
      ExceptionRecord(code, message, file, line, trace)
    }
  }

  class Job {
    /** Assigned once, by the constructor; no method changes it. */
    const id: string
    var tag: Option<string>
    var status: int
    var retry: int
    var messages: seq<string>
    var exceptions: seq<ExceptionRecord>

    /** The job's state as a value. */
    function View(): JobState
      reads this
    {
      JobState(id, tag, status, retry, messages, exceptions)
    }

    predicate Valid()
      reads this
    {
      ValidState(View())
    }

    /** A new job identified by `id`, which the caller generates. */
    constructor (id: string)
      ensures Valid()
      ensures View() == Initial(id)
    {
      this.id := id;
      tag := None;
      status := Idle;
      retry := InitialRetry;
      messages := [];
      exceptions := [];
    }

    method GetId() returns (r: string)
      ensures r == id
    {
      r := id;
    }

    /** Reading a tag that was never set is a type error. */
    method GetTag() returns (r: Result<string>)
      ensures r.Success? <==> tag.Some?
      ensures r.Success? ==> r.value == tag.value
      ensures r.Failure? ==> r.error == TypeError
    {
      match tag
      case Some(t) => r := Success(t);
      case None => r := Failure(TypeError);
    }

    method SetTag(t: string)
      requires Valid()
      modifies this
      ensures Valid()
      ensures tag == Some(t)
      ensures status == old(status) && retry == old(retry)
      ensures messages == old(messages) && exceptions == old(exceptions)
      ensures View() == Step(old(View()), CallSetTag(t)).0
    {
      tag := Some(t);
    }

    method GetStatus() returns (r: int)
      requires Valid()
      ensures r == status
      ensures 0 <= r <= 5
    {
      r := status;
      StatusCodes(r);
    }

    /** Accepts one of the six status codes; any other code raises and changes nothing. */
    method SetStatus(code: int) returns (r: Result<()>)
      requires Valid()
      modifies this
      ensures Valid()
      ensures r.Success? <==> IsStatus(code)
      ensures r.Failure? ==> r.error == LogicException("Invalid status")
      ensures status == (if IsStatus(code) then code else old(status))
      ensures tag == old(tag) && retry == old(retry)
      ensures messages == old(messages) && exceptions == old(exceptions)
      ensures View() == Step(old(View()), CallSetStatus(code)).0
    {
      if code !in AllStatuses {
        r := Failure(LogicException("Invalid status"));
        return;
      }
      status := code;
      r := Success(());
    }

    /** Appends a snapshot of `e`; later changes to `e` do not reach the log. */
    method RecordException(e: Exception)
      requires Valid()
      modifies this
      ensures Valid()
      ensures exceptions == old(exceptions) + [e.Snapshot()]
      ensures tag == old(tag) && status == old(status) && retry == old(retry)
      ensures messages == old(messages)
      ensures View() == Step(old(View()), CallRecordException(e.Snapshot())).0
    {
      exceptions := exceptions + [ExceptionRecord(e.code, e.message, e.file, e.line, e.trace)];
    }

    method GetExceptions() returns (r: seq<ExceptionRecord>)
      ensures r == exceptions
    {
      r := exceptions;
    }

    method RecordMessage(m: string)
      requires Valid()
      modifies this
      ensures Valid()
      ensures messages == old(messages) + [m]
      ensures tag == old(tag) && status == old(status) && retry == old(retry)
      ensures exceptions == old(exceptions)
      ensures View() == Step(old(View()), CallRecordMessage(m)).0
    {
      messages := messages + [m];
    }

    method GetMessages() returns (r: seq<string>)
      ensures r == messages
    {
      r := messages;
    }

    /** Grants a retry, spending one unit of the budget, while any is left. */
    method ConsumeRetry() returns (granted: bool)
      requires Valid()
      modifies this
      ensures Valid()
      ensures granted <==> old(retry) > 0
      ensures retry == (if granted then old(retry) - 1 else old(retry))
      ensures 0 <= retry <= old(retry)
      ensures tag == old(tag) && status == old(status)
      ensures messages == old(messages) && exceptions == old(exceptions)
      ensures (View(), Retry(granted)) == Step(old(View()), CallConsumeRetry)
    {
      if retry > 0 {
        retry := retry - 1;
        return true;
      }
      return false;
    }

    /** Every exception is worth retrying. */
    method ShouldRetry(e: Exception) returns (r: bool)
      ensures r
    {
      r := true;
    }
  }

  /**
    Recording an exception and then changing the exception object leaves the
    stored record as it was when recorded.
   */
  method RecordThenMutate(j: Job, e: Exception, message: string)
    requires j.Valid()
    modifies j, e
    ensures j.Valid()
    ensures j.exceptions == old(j.exceptions) + [old(e.Snapshot())]
    ensures e.message == message
  {
    j.RecordException(e);
    e.message := message;
  }

  /** One mutator call on a job, dispatched to the method it names. */
  method Call(j: Job, op: Op) returns (reply: Reply)
    requires j.Valid()
    modifies j
    ensures j.Valid()
    ensures (j.View(), reply) == Step(old(j.View()), op)
  {
    match op {
      case CallSetTag(t) =>
        j.SetTag(t);
        reply := Done;
      case CallSetStatus(code) =>
        var r := j.SetStatus(code);
        reply := if r.Success? then Done else Raised(r.error);
      case CallConsumeRetry =>
        var granted := j.ConsumeRetry();
        reply := Retry(granted);
      case CallRecordException(rec) =>
        var e := new Exception(rec.code, rec.message, rec.file, rec.line, rec.trace);
        j.RecordException(e);
        reply := Done;
      case CallRecordMessage(m) =>
        j.RecordMessage(m);
        reply := Done;
    }
  }

  /**
    Any sequence of mutator calls made on a job, in order, leaves the job in
    the state `JobModel.Run` gives and returns the same replies, so the lemmas
    about `Run` hold of the object.
   */
  method Apply(j: Job, ops: seq<Op>) returns (replies: seq<Reply>)
    requires j.Valid()
    modifies j
    ensures j.Valid()
    ensures (j.View(), replies) == Run(old(j.View()), ops)
  {
    replies := [];
    assert [] + Run(j.View(), ops).1 == Run(j.View(), ops).1;
    for i := 0 to |ops|
      invariant j.Valid()
      invariant Run(old(j.View()), ops) == (Run(j.View(), ops[i..]).0, replies + Run(j.View(), ops[i..]).1)
    {
      ghost var before := j.View();
      assert ops[i..][0] == ops[i] && ops[i..][1..] == ops[i + 1..];
      var reply := Call(j, ops[i]);
      ghost var rest := Run(j.View(), ops[i + 1..]);
      assert Run(before, ops[i..]) == (rest.0, [reply] + rest.1);
      assert replies + ([reply] + rest.1) == (replies + [reply]) + rest.1;
      replies := replies + [reply];
    }
    assert replies + [] == replies;
  }

  /**
    How an executor handles one failed attempt: when the exception is worth
    retrying and a retry is granted, it records the exception and reschedules
    the job; otherwise it marks the job failed.
   */
  method HandleFailure(j: Job, e: Exception) returns (granted: bool)
    requires j.Valid()
    modifies j
    ensures j.Valid()
    ensures granted <==> old(j.retry) > 0
    ensures j.retry == (if granted then old(j.retry) - 1 else old(j.retry))
    ensures j.status == (if granted then Rescheduled else Failed)
    ensures j.exceptions == old(j.exceptions) + (if granted then [e.Snapshot()] else [])
    ensures j.messages == old(j.messages) && j.tag == old(j.tag)
  {
    var retryable := j.ShouldRetry(e);
    granted := false;
    if retryable {
      granted := j.ConsumeRetry();
    }
    var outcome;
    if granted {
      j.RecordException(e);
      outcome := j.SetStatus(Rescheduled);
    } else {
      outcome := j.SetStatus(Failed);
    }
  }

  /**
    Four failed attempts of a fresh job: the first three are retried, the
    fourth finds the budget spent, and the job ends failed with three
    exceptions logged.
   */
  method RetryUntilFailed(id: string, e: Exception) returns (j: Job, grants: seq<bool>)
    ensures grants == [true, true, true, false]
    ensures j.id == id && j.Valid()
    ensures j.status == Failed && j.retry == 0
    ensures j.exceptions == [e.Snapshot(), e.Snapshot(), e.Snapshot()]
    ensures j.messages == []
  {
    j := new Job(id);
    var g1 := HandleFailure(j, e);
    var g2 := HandleFailure(j, e);
    var g3 := HandleFailure(j, e);
    var g4 := HandleFailure(j, e);
    grants := [g1, g2, g3, g4];
  }

  /**
    An executor whose first run of a fresh job completes: the job is marked
    finished with its retry budget untouched and no exception recorded.
   */
  method FinishFirstTime(id: string) returns (j: Job)
    ensures j.id == id && j.Valid()
    ensures j.status == Finished && j.retry == InitialRetry
    ensures j.exceptions == [] && j.messages == []
  {
    j := new Job(id);
    var outcome := j.SetStatus(Running);
    outcome := j.SetStatus(Finished);
  }
}
