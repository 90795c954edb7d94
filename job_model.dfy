/**
  The value-level model of a deferred job: its status codes, the records it
  keeps, the state it holds, and what each of its mutators does to that state.
  The class `Jobs.Job` is proved against `Step`; the lemmas here state what
  holds over any sequence of mutator calls on one job.
 */
module JobModel {

  // Status codes of a job.
  const Idle: int := 0         // waiting to be picked up by a worker
  const Rescheduled: int := 1  // failed, waiting to be retried
  const Selected: int := 2     // claimed by a worker, not running yet
  const Running: int := 3
  const Failed: int := 4       // failed, will not be retried
  const Finished: int := 5     // finished successfully

  /** The only codes `setStatus` accepts. */
  const AllStatuses: seq<int> := [Idle, Rescheduled, Selected, Running, Failed, Finished]

  /** The retry budget of a fresh job. */
  const InitialRetry: int := 3

  predicate IsStatus(code: int) {
    code in AllStatuses
  }

  /** The six accepted codes are exactly the integers 0 to 5. */
  lemma StatusCodes(code: int)
    ensures IsStatus(code) <==> 0 <= code <= 5
  {
    if 0 <= code <= 5 {
      assert AllStatuses[code] == code;
    }
  }

  datatype Option<T> = None | Some(value: T)

  datatype Result<T> = Success(value: T) | Failure(error: Error)

  /** The errors a job raises: an invalid status code, and reading a tag that was never set. */
  datatype Error = LogicException(message: string) | TypeError

  /** An exception code: usually an integer, but some exceptions carry a string code. */
  datatype Code = IntCode(int) | StringCode(string)

  /** The five values copied out of an exception when it is recorded. */
  datatype ExceptionRecord = ExceptionRecord(code: Code, message: string, file: string, line: int, trace: string)

  /** Everything a job holds. An unset tag is `None`. */
  datatype JobState = JobState(
    id: string,
    tag: Option<string>,
    status: int,
    retry: int,
    messages: seq<string>,
    exceptions: seq<ExceptionRecord>)

  /** The invariant every job keeps. */
  predicate ValidState(s: JobState) {
    IsStatus(s.status) && 0 <= s.retry <= InitialRetry
  }

  /** A freshly constructed job with identifier `id`. */
  function Initial(id: string): (s: JobState)
    ensures ValidState(s)
    ensures s.id == id && s.tag == None
    ensures s.status == Idle && s.retry == InitialRetry
    ensures s.messages == [] && s.exceptions == []
  {
    JobState(id, None, Idle, InitialRetry, [], [])
  }

  /** The calls that change a job. */
  datatype Op =
    | CallSetTag(tag: string)
    | CallSetStatus(status: int)
    | CallConsumeRetry
    | CallRecordException(record: ExceptionRecord)
    | CallRecordMessage(message: string)

  /** What a mutator call reports back: nothing, a retry decision, or a raised error. */
  datatype Reply = Done | Retry(granted: bool) | Raised(error: Error)

  /**
    One mutator call. Each call keeps the invariant and the identifier, never
    raises the retry budget or lowers it by more than one, never removes log
    entries, and a call that raises leaves the job as it was.
   */
  function Step(s: JobState, op: Op): (r: (JobState, Reply))
    ensures ValidState(s) ==> ValidState(r.0)
    ensures r.0.id == s.id
    ensures s.retry - 1 <= r.0.retry <= s.retry
    ensures s.messages <= r.0.messages && s.exceptions <= r.0.exceptions
    ensures r.1.Raised? <==> op.CallSetStatus? && !IsStatus(op.status)
    ensures r.1.Raised? ==> r.0 == s
    ensures r.1.Retry? <==> op.CallConsumeRetry?
    ensures r.0.status != s.status ==> op == CallSetStatus(r.0.status) && IsStatus(r.0.status)
    ensures r.0.tag != s.tag ==> r.0.tag.Some? && op == CallSetTag(r.0.tag.value)
  {
    match op
    case CallSetTag(t) => (s.(tag := Some(t)), Done)
    case CallSetStatus(code) =>
      if IsStatus(code) then (s.(status := code), Done)
      else (s, Raised(LogicException("Invalid status")))
    case CallConsumeRetry =>
      if s.retry > 0 then (s.(retry := s.retry - 1), Retry(true))
      else (s, Retry(false))
    case CallRecordException(e) => (s.(exceptions := s.exceptions + [e]), Done)
    case CallRecordMessage(m) => (s.(messages := s.messages + [m]), Done)
  }

  /** A sequence of mutator calls on one job, in order, with the reply to each. */
  function Run(s: JobState, ops: seq<Op>): (r: (JobState, seq<Reply>))
    ensures |r.1| == |ops|
    decreases |ops|
  {
    if ops == [] then (s, [])
    else
      var (next, reply) := Step(s, ops[0]);
      var (t, replies) := Run(next, ops[1..]);
      (t, [reply] + replies)
  }

  /** How many replies granted a retry. */
  function Granted(replies: seq<Reply>): nat {
    if replies == [] then 0
    else (if replies[0] == Retry(true) then 1 else 0) + Granted(replies[1..])
  }

  /** The messages recorded by `ops`, in call order. */
  function MessagesOf(ops: seq<Op>): seq<string> {
    if ops == [] then []
    else (if ops[0].CallRecordMessage? then [ops[0].message] else []) + MessagesOf(ops[1..])
  }

  /** The exception records stored by `ops`, in call order. */
  function ExceptionsOf(ops: seq<Op>): seq<ExceptionRecord> {
    if ops == [] then []
    else (if ops[0].CallRecordException? then [ops[0].record] else []) + ExceptionsOf(ops[1..])
  }

  /** `n` consecutive calls of `consumeRetry`. */
  function Consumes(n: nat): (ops: seq<Op>)
    ensures |ops| == n
  {
    if n == 0 then [] else [CallConsumeRetry] + Consumes(n - 1)
  }

  function Max(a: int, b: int): int {
    if a < b then b else a
  }

  /**
    Over any sequence of calls the invariant holds, the identifier never
    changes, the retry budget never grows, and both logs only grow at the end.
   */
  lemma {:induction false} RunKeepsInvariant(s: JobState, ops: seq<Op>)
    requires ValidState(s)
    ensures ValidState(Run(s, ops).0)
    ensures Run(s, ops).0.id == s.id
    ensures 0 <= Run(s, ops).0.retry <= s.retry
    ensures s.messages <= Run(s, ops).0.messages
    ensures s.exceptions <= Run(s, ops).0.exceptions
    decreases |ops|
  {
    if ops != [] {
      var next := Step(s, ops[0]).0;
      RunKeepsInvariant(next, ops[1..]);
    }
  }

  /**
    The logs after a sequence of calls are the old logs followed by exactly
    what was recorded, in call order, with no entry dropped or merged.
   */
  lemma {:induction false} RunAppendsLogs(s: JobState, ops: seq<Op>)
    ensures Run(s, ops).0.messages == s.messages + MessagesOf(ops)
    ensures Run(s, ops).0.exceptions == s.exceptions + ExceptionsOf(ops)
    decreases |ops|
  {
    if ops != [] {
      var next := Step(s, ops[0]).0;
      RunAppendsLogs(next, ops[1..]);
      assert next.messages == s.messages + (if ops[0].CallRecordMessage? then [ops[0].message] else []);
      assert next.exceptions == s.exceptions + (if ops[0].CallRecordException? then [ops[0].record] else []);
    }
  }

  /** The retry budget goes down by exactly one for each granted retry. */
  lemma {:induction false} RunRetryAccounting(s: JobState, ops: seq<Op>)
    requires s.retry >= 0
    ensures Run(s, ops).0.retry >= 0
    ensures s.retry - Run(s, ops).0.retry == Granted(Run(s, ops).1)
    decreases |ops|
  {
    if ops != [] {
      var (next, reply) := Step(s, ops[0]);
      RunRetryAccounting(next, ops[1..]);
      assert Run(s, ops).1 == [reply] + Run(next, ops[1..]).1;
      assert ([reply] + Run(next, ops[1..]).1)[1..] == Run(next, ops[1..]).1;
    }
  }

  /**
    `n` calls of `consumeRetry` grant exactly the first `retry` of them, and
    leave a budget of `retry - n`, or zero once it runs out.
   */
  lemma {:induction false} ConsumeRetries(s: JobState, n: nat)
    requires s.retry >= 0
    ensures Run(s, Consumes(n)).0 == s.(retry := Max(0, s.retry - n))
    ensures forall i :: 0 <= i < n ==> Run(s, Consumes(n)).1[i] == Retry(i < s.retry)
    decreases n
  {
    if n > 0 {
      var (next, reply) := Step(s, CallConsumeRetry);
      assert Consumes(n)[0] == CallConsumeRetry && Consumes(n)[1..] == Consumes(n - 1);
      ConsumeRetries(next, n - 1);
      var replies := Run(s, Consumes(n)).1;
      assert replies == [reply] + Run(next, Consumes(n - 1)).1;
      forall i | 0 <= i < n
        ensures replies[i] == Retry(i < s.retry)
      {
        if i > 0 {
          assert replies[i] == Run(next, Consumes(n - 1)).1[i - 1];
        }
      }
    }
  }

  /**
    On a fresh job, three calls of `consumeRetry` are granted and the fourth is
    refused, leaving the budget at zero.
   */
  lemma FreshJobRetries(id: string)
    ensures Run(Initial(id), Consumes(4)).1 == [Retry(true), Retry(true), Retry(true), Retry(false)]
    ensures Run(Initial(id), Consumes(4)).0 == Initial(id).(retry := 0)
  {
    ConsumeRetries(Initial(id), 4);
  }
}
