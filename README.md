# Deferred job model

A Dafny model of the `Job` base class of the Apigee Edge Drupal module
(`apigee_edge/src/Job.php`). A job is a passive container for one unit of
deferred work. It holds:

- an identifier, fixed at construction;
- a free-form grouping tag;
- a status code, which must be one of six constants (IDLE=0, RESCHEDULED=1,
  SELECTED=2, RUNNING=3, FAILED=4, FINISHED=5);
- a retry budget that starts at 3 and is spent one unit at a time, never
  below zero;
- two append-only logs: human-readable messages, and snapshots of recorded
  exceptions (code, message, file, line, trace).

The project has two modules:

- `JobModel` (`job_model.dfy`) holds the constants, the records, the job state
  as a value (`JobState`) and the effect of each mutator on it (`Step`). `Run`
  applies a sequence of mutator calls. The lemmas state what holds over any
  such sequence: the invariant and the identifier are kept, the budget only
  shrinks and shrinks by exactly one per granted retry, and the logs are the
  old logs followed by exactly what was recorded, in call order.
- `Jobs` (`job.dfy`) holds the class `Job`, whose fields its methods update in
  place. Each mutator states its new fields outright, states that no other
  field changes, and is tied to `JobModel.Step` through `View()`. `Apply`
  makes any sequence of calls on a `Job` and proves that the job ends in the
  state `JobModel.Run` gives, with the same replies, so the lemmas of
  `JobModel` hold of the object. A thrown
  exception is the class `Exception`. Its fields can still change after it has
  been recorded, and `RecordThenMutate` shows that the stored record does not
  follow those changes. Three client methods (`HandleFailure`,
  `RetryUntilFailed`, `FinishFirstTime`) drive a job the way an executor
  would. They show that the class contracts are enough to reason about the
  retry-until-failed and finish-first-time lifecycles.

Choices the model makes about what the code leaves open or does at run time:

- `getTag()` before `setTag()` reads an uninitialised property through a
  `: string` return type, which fails at run time. The model keeps the tag as
  `Option<string>`, and `GetTag` returns `Failure(TypeError)` when no tag has
  been set. It does not invent a default.
- An invalid status code raises `LogicException('Invalid status')`. This is
  modelled as the result `Failure(LogicException("Invalid status"))`, with the
  job unchanged.
- `getCode()` of a PHP exception is usually an integer, but some exception
  classes carry a string code. A recorded code is therefore either an integer
  or a string (`Code`).
- The identifier comes from a UUID service outside the class, and nothing in
  the class makes it non-empty or unique. The model
  takes the identifier as a constructor parameter and promises only that it
  never changes.

## Model

| member | source | states |
|---|---|---|
| `JobModel.StatusCodes` | apigee_edge/src/Job.php:15-49 | a code is in ALL_STATUSES exactly when it is one of the integers 0 to 5 |
| `JobModel.Initial` | apigee_edge/src/Job.php:56-92 | a fresh job is valid, has status IDLE, retry budget 3, no tag and empty message and exception logs |
| `JobModel.Step` | apigee_edge/src/Job.php:120-210 | every mutator call keeps the invariant and the id, lowers the budget by at most one and never raises it, only appends to the logs; a call raises exactly when setStatus gets a code outside the six, and then changes nothing; only setStatus with a valid code changes the status, only setTag changes the tag |
| `JobModel.Run` | apigee_edge/src/Job.php:120-210 | a sequence of mutator calls yields one reply per call |
| `JobModel.RunKeepsInvariant` | apigee_edge/src/Job.php:138-210 | over any sequence of calls the status stays one of the six codes, the budget stays between 0 and its starting value, the id never changes and both logs keep their old entries as a prefix |
| `JobModel.RunAppendsLogs` | apigee_edge/src/Job.php:151-186 | after any sequence of calls each log is the old log followed by exactly the recorded items, in call order, with no deduplication |
| `JobModel.RunRetryAccounting` | apigee_edge/src/Job.php:203-210 | the budget spent over any sequence of calls equals the number of consumeRetry calls that returned true |
| `JobModel.ConsumeRetries` | apigee_edge/src/Job.php:203-210 | n calls of consumeRetry return true for exactly the first `retry` of them and leave the budget at max(0, retry - n), with nothing else changed |
| `JobModel.FreshJobRetries` | apigee_edge/src/Job.php:203-210 | on a fresh job consumeRetry returns true, true, true, then false, and the budget ends at 0 |
| `Jobs.Job.constructor` | apigee_edge/src/Job.php:191-195 | a new job carries the given id and is in the initial state |
| `Jobs.Job.GetId` | apigee_edge/src/Job.php:100-102 | returns the id fixed by the constructor |
| `Jobs.Job.GetTag` | apigee_edge/src/Job.php:111-113 | returns the tag when one was set, and a type error otherwise |
| `Jobs.Job.SetTag` | apigee_edge/src/Job.php:120-122 | sets the tag and changes nothing else |
| `Jobs.Job.GetStatus` | apigee_edge/src/Job.php:129-131 | returns the current status, which is always between 0 and 5 |
| `Jobs.Job.SetStatus` | apigee_edge/src/Job.php:138-144 | succeeds exactly when the code is one of the six statuses and then sets it; otherwise raises LogicException("Invalid status") and keeps the old status; no other field changes |
| `Jobs.Job.RecordException` | apigee_edge/src/Job.php:151-159 | appends one record holding the exception's code, message, file, line and trace at the end of the exception log; earlier records and all other fields are unchanged |
| `Jobs.Job.GetExceptions` | apigee_edge/src/Job.php:166-168 | returns the exception log in recording order |
| `Jobs.Job.RecordMessage` | apigee_edge/src/Job.php:175-177 | appends the message at the end of the message log; nothing else changes |
| `Jobs.Job.GetMessages` | apigee_edge/src/Job.php:184-186 | returns the message log in recording order |
| `Jobs.Job.ConsumeRetry` | apigee_edge/src/Job.php:203-210 | returns true and spends one unit exactly when the budget is positive; otherwise returns false and leaves it; the budget never goes negative or grows; nothing else changes |
| `Jobs.Job.ShouldRetry` | apigee_edge/src/Job.php:219-221 | every exception is retryable, and nothing is changed |
| `Jobs.RecordThenMutate` | apigee_edge/src/Job.php:151-159 | a recorded exception is a snapshot: changing the exception afterwards leaves the stored record as it was |
| `Jobs.Call` | apigee_edge/src/Job.php:120-210 | one call of setTag, setStatus, consumeRetry, recordException or recordMessage on a job has exactly the effect and reply that `JobModel.Step` gives |
| `Jobs.Apply` | apigee_edge/src/Job.php:120-210 | any sequence of those calls made on a job leaves it valid, in the state `JobModel.Run` gives, with the same replies, so the lemmas about `Run` hold of the object |
| `Jobs.HandleFailure` | apigee_edge/src/Job.php:197-221 | an executor that consults shouldRetry and consumeRetry reschedules the job and records the exception exactly while budget is left, and otherwise marks it FAILED |
| `Jobs.RetryUntilFailed` | apigee_edge/src/Job.php:197-221 | four failures of a fresh job are granted, granted, granted, refused; the job ends FAILED with budget 0 and three exception records |
| `Jobs.FinishFirstTime` | apigee_edge/src/Job.php:138-144 | a fresh job that completes on its first run ends FINISHED with budget 3 and an empty exception log |

## Left out

- `execute()`, `renderArray()` and `__toString()` are abstract in the base class and have no body and no behaviour in the source, so they are left out.
- The UUID service lookup in the constructor is a call into the framework's service container. The id is a constructor parameter instead, and its uniqueness is not modelled.
- Jobs.Job.ShouldRetry: models only the base class, which accepts every exception. Subclasses that override it to refuse some exceptions are not modelled.
- The mutators and `GetStatus` require `Valid()`, the object invariant. The PHP methods have no such precondition, but every job built by the constructor and changed only through these methods satisfies it. Subclasses writing the protected `status`, `retry`, `messages` and `exceptions` properties directly are not modelled.
- The executor that claims, runs and persists jobs is not part of this model. `Apply`, `HandleFailure`, `RetryUntilFailed` and `FinishFirstTime` are clients of the class that follow the executor protocol described for it. They are not a model of an executor's code.
- Serialisation, persistence and concurrent access to a job are not modelled. The class assumes a single caller at a time.
- `src/Entity/Form/DeveloperAppEditForm.php` (form building, redirects and remote API calls) and `src/Entity/Controller/Cache/DeveloperCache.php` (an override of a cache layer that is not shown) are not part of this model.
