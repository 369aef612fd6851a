# Nailong-OJ in Dafny

Nailong-OJ is an online-judge backend: users submit programs, a queue hands them to judge
nodes, a sandbox runs them and a verdict ends up in MySQL. This project models the parts of
it whose correctness is not visible in any one function, and proves what they promise.
`dafny verify dfyconfig.toml` checks everything.

| part | files |
|---|---|
| delivery of judge tasks, life of a submission row | `Delivery`, `DeliverySafety`, `SubmissionStatus`, `Overlap`, `Settling`, `Draining`, `Recovery`, `JudgeQueue`, `JudgeTask`, `JudgeAlone` |
| MySQL connection pool | `MysqlPool` |
| problem cache: L1, Redis, MySQL | `ProblemDetail`, `ProblemStaleness`, `ProblemAlone`, `ProblemCache` |
| runner text, sandbox, verdict, output comparison | `RunnerLine`, `RunnerText`, `Pipeline`, `Verdict`, `OutputMatch` |
| Redis protocol and connection | `Resp`, `RespLaws`, `RedisConn` |
| base64url, tokens, stored passwords | `Base64Url`, `Token` |
| least-load choice, keyset paging | `LoadBalance`, `Paging` |
| library primitives the code relies on | `Text`, `Sequences`, `Wrappers` |

The concurrent parts (delivery, pool, cache) are step systems: every SQL statement, every
queue call under its mutex and every critical section is one event, what the outside world
decides is a parameter of the event, and a theorem about all runs is a theorem about all
sequences of events. Where the source changes an object in place there is a class whose
methods are proved against the same functions the step systems use.

How to read the delivery system. A thread has a program counter (publishing, popped,
judging, finished, sweeping); a thread without one is idle. The broker is a multiset of ready
bodies and, for each connection, a map from tag to unacknowledged body. Losing a connection,
by a failing call, by the broker or by a crash, puts its unacknowledged bodies back. A
restarted process is a fresh one. `orphaned` records the ids of which a copy has been dropped
since the last publish; it has no counterpart in the code and decides nothing. Statements that
fail may still have been applied. Connecting and the call that triggers it are two events, and
any worker may defer at any time, which only adds runs.

Recovery is a statement about all runs. A run is smooth if no process crashes, no problem is
edited, no statement fails and the sandbox is deterministic; connections to the broker may
fail, tasks may be deferred or judged twice at once, and new submissions may arrive.

## Where code and documentation disagree

- `sql/schema.sql:68` ends the lifecycle with a final status. `UPDATE ... 'JUDGING'` at
  `nl-judge/src/module.cpp:101` is unguarded, so a duplicate task can take a row out of its
  final status (`Overlap.FinalIsLeft`). `SubmissionStatus.FinalForeverIff` says exactly when a
  final status is final, and `FinalStatusesAgree` that the next one is the same.
- A failed overflow open can drive `overflow_` below zero
  (`MysqlPool.OverflowCanBeNegative`); `TurnsNegativeExactly` gives the exact step, and the
  bounds are proved on the sum.
- A runner text whose verdict word is "AC" would be written through
  (`Verdict.VerdictTextAcIsWritten`); `Verdict.AcceptedExactly` says that this is the only way
  in which AC does not mean that all cases pass. The runner prints no such word.
- `create_problem` invalidates nothing; `ProblemCache.CreateKeepsCoherentIff` says exactly when
  the cache is still right after it.
- `encode_problem` fills in two empty columns, so cached details are the stored ones only up
  to these defaults (`ProblemDetail.CodecRoundTrip`).
- `sign_hs256_jwt` accepts an empty payload that `verify_hs256_signature` refuses
  (`Token.SignVerify`); the claims it dumps are never empty.

## Model

| member | source | states |
|---|---|---|
| Delivery.ParseEncode | nl-common/src/mq.cpp:70-98 | reading a published body gives the message back; exactly the invalid messages are poison |
| DeliverySafety.NoLostTask | nl-submit/src/module.cpp:57-82 | in every reachable state a submission whose id was returned is final, or has a copy with the broker, in a local queue or with a responsible consumer, or had a copy dropped since its last publish |
| DeliverySafety.DroppedOnlyBy | nl-judge/src/node.cpp:228-229 | a copy is dropped only by acknowledging a failed attempt or by the crash of a process the broker cannot make good for |
| DeliverySafety.AckIsOwn | nl-common/src/mq.cpp:383-395 | an acknowledgement never removes another thread's delivery: tags do not alias |
| DeliverySafety.PublishNeverRefused | nl-common/src/mq.cpp:287-329 | in reachable states no publish is refused and no delivered body is poison |
| DeliverySafety.StepKeepsInv | nl-common/src/mq.cpp:226-395 | every event keeps messages readable, tags distinct and known to the broker, rows valid and accepted submissions safe |
| DeliverySafety.SafeOn | nl-judge/src/node.cpp:203-234 | every event, failures and crashes included, keeps one submission safe |
| DeliverySafety.AnswersOn | nl-judge/src/module.cpp:27-195 | a worker that steps through `run_judge_task` answers for the submission until its row is final |
| DeliverySafety.SendingCopies | nl-common/src/mq.cpp:324-341 | after a publish, whichever way it went, a copy is with the broker or in the local queue |
| SubmissionStatus.Transitions | nl-judge/src/module.cpp:100-131 | the status changes only by the JUDGING write, the final write and, from JUDGING only, the reclaimer's reset; so no reclaim step touches a final status |
| SubmissionStatus.FinalForeverIff | nl-judge/src/module.cpp:59-105 | a final status stays final in every continuation iff no worker is between its reading of the row and its JUDGING write |
| SubmissionStatus.SolitaryKeepsFinal | nl-judge/src/module.cpp:41-131 | along every run in which the judging windows of a submission do not overlap, final is final |
| SubmissionStatus.FinalStatusesAgree | nl-judge/src/module.cpp:107-194 | however windows overlap, all final statuses ever written to a row are equal, for a deterministic sandbox and an unedited problem |
| SubmissionStatus.FinalIsTheFold | nl-judge/src/module.cpp:134-194 | and equal to the fold of what the sandbox reports for the submission |
| SubmissionStatus.PublishCovers | nl-judge/src/module.cpp:253-259 | every successful republish leaves a copy and clears the record of dropped copies |
| SubmissionStatus.SweepRestores | nl-judge/src/module.cpp:209-261 | from any reachable state the sweep that finds an open row restores its copy, makes it PENDING and changes no other row |
| Overlap.FinalIsLeft | nl-judge/src/module.cpp:100-105 | a reachable state with a final row, and a run after which it is JUDGING |
| Recovery.EndPopped | nl-judge/src/module.cpp:27-195 | every way of carrying a popped task through without a failure ends with its row judged by the sandbox and nothing else changed but the acknowledgement |
| Settling.CopyKept | nl-judge/src/node.cpp:203-234 | without a crash and a failed attempt no event drops the last copy |
| Settling.PromiseKept | nl-judge/src/module.cpp:239-260 | a row the reclaimer has selected gets its publish, even if another reclaimer resets it first |
| Settling.StepKeepsNoneFailed | nl-judge/src/module.cpp:63-105 | an attempt at a judgeable submission never fails while no statement does |
| Settling.RunKeeps | nl-judge/src/module.cpp:27-262 | from its copy or its selection on, a judgeable submission is final, on its way or about to be published, along every such run |
| Settling.RunEarns | nl-judge/src/module.cpp:134-194 | a row that was open is final only with the sandbox's verdict, and its other columns never change |
| Settling.RunUntouched | nl-judge/src/module.cpp:59-62 | a final row nobody is judging is never touched, in any run |
| Draining.StepUses | nl-judge/src/node.cpp:203-234 | every event of a consumer, and every publish or sweep step already begun, strictly decreases the load |
| Draining.DrainEnds | nl-common/src/mq.cpp:343-357 | no drain is longer than the load it starts with |
| Draining.DrainGoesOn | nl-common/src/mq.cpp:343-381 | until everything is at rest a drain can go on without a failure; so every drain comes to rest |
| Recovery.Drain | nl-common/src/mq.cpp:343-357 | from every well-formed state whose queue is served, a failure-free drain to rest |
| Recovery.JudgeAllIs | nl-judge/src/module.cpp:59-62 | duplicates do not matter: a row comes out judged once iff it is mentioned at all |
| Recovery.SweepAll | nl-judge/src/module.cpp:209-261 | whatever a sweep is mixed with, once no reclaimer is at work every judgeable row it found is final or has a copy on its way |
| Recovery.Recovered | nl-judge/src/module.cpp:27-262 | every run from a reachable state without threads in which no statement fails and nothing crashes, that finds each open row without a copy and comes to rest, ends with every final row untouched, every judgeable one at its verdict and the others still open |
| Recovery.Recoverable | nl-judge/src/module.cpp:197-262 | and such a run exists: select all open rows, then drain |
| JudgeQueue.Queue.EnsureBackend | nl-common/src/mq.cpp:226-237 | connecting is tried once in the life of the process |
| JudgeQueue.Queue.Fallback | nl-common/src/mq.cpp:239-242 | the broker takes back what was unacknowledged, the process goes on locally |
| JudgeQueue.Queue.RabbitPublish | nl-common/src/mq.cpp:298-320 | the body reaches the broker, or the connection is given up |
| JudgeQueue.Queue.PushLocal | nl-common/src/mq.cpp:338-338 | appends to the local queue |
| JudgeQueue.Queue.Publish | nl-common/src/mq.cpp:324-341 | returns 1 exactly for valid messages and does what the publish event does |
| JudgeQueue.Queue.RabbitTryPop | nl-common/src/mq.cpp:245-296 | failing call, empty queue, poison and message, each with its effect on both sides |
| JudgeQueue.Queue.TryPop | nl-common/src/mq.cpp:343-357 | hands out and removes exactly the delivered or the first local message |
| JudgeQueue.Queue.Ack | nl-common/src/mq.cpp:383-395 | removes the delivery under the message's tag, for messages of the broker only |
| JudgeQueue.ProbeIsEvent | nl-common/src/mq.cpp:226-237 | the first use of the queue is the step system's probe |
| JudgeQueue.GetIsEvent | nl-common/src/mq.cpp:245-296 | what a pop takes from the broker and hands to the thread is what the step system's get does |
| JudgeQueue.PopIsEvent | nl-common/src/mq.cpp:350-357 | and what it takes from the local queue what its local pop does |
| JudgeTask.Judge.RunJudgeTask | nl-judge/src/module.cpp:27-195 | the rows and the result for every pattern of failing statements: it returns 1 only with a final row, never changes a final row or another row, and judges the row when every statement succeeds |
| JudgeTask.Judge.ReclaimOne | nl-judge/src/module.cpp:240-260 | one turn of the loop: guarded reset, then publish |
| JudgeTask.Judge.ReclaimStaleJudging | nl-judge/src/module.cpp:197-262 | the rows, the queue and the returned count after the whole loop, for any pattern of failing updates |
| JudgeTask.Node.Round | nl-judge/src/node.cpp:202-235 | one round: what is popped, that a task is deferred iff the broker is in use and the task belongs elsewhere, the rows as `run_judge_task` leaves them otherwise, and the queue after the publish and the acknowledgement; a deferred task has its copy first |
| JudgeTask.Node.DrainLocal | nl-api/src/server.cpp:749-763 | rounds over a local queue terminate with it empty and each of its messages judged |
| JudgeTask.CreateSubmission | nl-submit/src/module.cpp:18-83 | the id is returned exactly for acceptable submissions that are inserted, with a PENDING row of theirs and their message published; otherwise nothing changes |
| JudgeTask.SweepAchieves | nl-judge/src/module.cpp:239-261 | each selected row whose update did not fail is PENDING with a copy waiting; every other row is as it was |
| JudgeAlone.AttemptIsARun | nl-judge/src/module.cpp:27-195 | whichever statements fail, `run_judge_task` is a run of its thread's events with the same rows and result |
| JudgeAlone.CreateIsARun | nl-submit/src/module.cpp:57-82 | so is a submission: the row, a copy sent, the id accepted |
| JudgeAlone.DeferIsARun | nl-judge/src/node.cpp:206-221 | and a deferral: a copy sent, then the task acknowledged |
| JudgeAlone.ReclaimIsARun | nl-judge/src/module.cpp:240-260 | and a turn of the reclaimer: a JUDGING row is reset before it is published, and left alone if the reset fails |
| JudgeAlone.CrashDrops | nl-common/src/mq.cpp:383-395 | a crash drops exactly what was queued in the process and what its consumers held and the broker did not; the broker's bodies are ready again |
| MysqlPool.Pool.Acquire | nl-common/src/mysql.cpp:52-87 | the pinging loop and both opens compute the specification, with one caller at a time |
| MysqlPool.Pool.Release | nl-common/src/mysql.cpp:89-106 | what giving back does in each branch |
| MysqlPool.AcquireAloneIsARun | nl-common/src/mysql.cpp:52-87 | the method's result is a run of the concurrent system |
| MysqlPool.AcquirePicksLatestAlive | nl-common/src/mysql.cpp:55-65 | the latest idle connection that still answers is taken, the dead ones above it are closed and discounted |
| MysqlPool.AcquireOpensWhenAllDead | nl-common/src/mysql.cpp:66-86 | if none answers one is opened, as an overflow one iff the pool is full |
| MysqlPool.StepKeepsCounts | nl-common/src/mysql.cpp:52-106 | every critical section keeps the counting equation and the bounds |
| MysqlPool.OpenConnectionsBounded | nl-common/src/mysql.cpp:52-106 | over all interleavings: live plus overflow equals idle plus callers, 0 <= idle <= live <= size, and open connections never exceed max(size, callers) |
| MysqlPool.HeldByOne | nl-common/src/mysql.cpp:55-60 | no connection is held twice, nor idle while held |
| MysqlPool.ReleaseBranches | nl-common/src/mysql.cpp:95-105 | a positive overflow means nothing is idle; the branch at lines 100-104 is unreachable |
| MysqlPool.Quiescent | nl-common/src/mysql.cpp:120-122 | with no caller active, overflow is not positive and is what live exceeds idle by, negated |
| MysqlPool.OverflowAccount | nl-common/src/mysql.cpp:66-98 | along every run overflow is the overflow opens pending or made less the releases counted against it |
| MysqlPool.TurnsNegativeExactly | nl-common/src/mysql.cpp:71-75 | overflow becomes negative exactly when an overflow open is undone at zero, and then more releases than successful overflow opens have been counted against it |
| MysqlPool.NoFailureQuiescent | nl-common/src/mysql.cpp:66-86 | if no open fails, overflow is never negative, and zero at rest |
| MysqlPool.OverflowCanBeNegative | nl-common/src/mysql.cpp:71-75 | a run that ends with overflow at -1 |
| ProblemDetail.CacheTtl | nl-problem/src/module.cpp:44-46 | between 1800 and 2400 seconds |
| ProblemDetail.CodecRoundTrip | nl-problem/src/module.cpp:78-129 | decoding an encoded detail gives it with its defaults, and itself iff neither column is empty |
| ProblemDetail.DecodesDefaults | nl-problem/src/module.cpp:104-129 | missing fields come out as their defaults, a missing id is refused |
| ProblemStaleness.BoundedStaleness | nl-problem/src/module.cpp:398-459 | however gets, writes, lost invalidations and outages interleave, an answer was the visible row within 1800 + id % 601 + 60 s, an empty one goes back within 360 s to a load that found no row or to one of the run's failing loads; plus three call durations |
| ProblemStaleness.NoneFailed | nl-problem/src/module.cpp:335-396 | a run in which no load fails has no failing loads, so there every empty answer goes back to a missing row |
| ProblemStaleness.NextCallOk | nl-problem/src/module.cpp:410-454 | each step of a get keeps its age bound: L1 is filled from Redis and never refills it |
| ProblemStaleness.SaveKeepsRedis | nl-problem/src/module.cpp:131-140 | what is written to Redis was loaded by the same call |
| ProblemStaleness.StepKeepsInv | nl-problem/src/module.cpp:48-145 | every event keeps all entries and calls within their bounds |
| ProblemAlone.GetAlone | nl-problem/src/module.cpp:398-459 | with nobody else at work a `get_problem` is a run of the interleaved system for every outcome of its Redis calls, its lock and its load; what it answers, keeps in L1 and stores in Redis |
| ProblemAlone.OneWayOn | nl-problem/src/module.cpp:398-459 | the stage of a call leaves it one next statement |
| ProblemAlone.OtherEvents | nl-problem/src/module.cpp:73-145 | what writing a row, erasing from L1 and deleting from Redis change, and that they can happen at any time |
| ProblemCache.Cache.L1Get | nl-problem/src/module.cpp:48-60 | hits exactly the unexpired entries and erases expired ones |
| ProblemCache.Cache.L1Put | nl-problem/src/module.cpp:62-71 | a full table gives up one entry, any other only gains the new one; at most 64 remain |
| ProblemCache.Cache.WriteCache | nl-problem/src/module.cpp:131-140 | stores what the encoded detail decodes to, or the empty marker with the short lifetime |
| ProblemCache.Cache.Invalidate | nl-problem/src/module.cpp:142-145 | removes the id from both tables |
| ProblemCache.Cache.L1Erase | nl-problem/src/module.cpp:73-76 | removes the id from L1 and nothing else |
| ProblemCache.Cache.LoadFromDb | nl-problem/src/module.cpp:335-396 | the visible row of the problem, or nothing |
| ProblemCache.Cache.Rebuild | nl-problem/src/module.cpp:447-454 | after a miss everywhere both tables hold what MySQL shows |
| ProblemCache.Cache.TakeFromRedis | nl-problem/src/module.cpp:416-428 | a Redis hit is returned and kept in L1 |
| ProblemCache.Cache.GetCached | nl-problem/src/module.cpp:410-454 | the three sources in their order: which one answers, which counter moves, what is written |
| ProblemCache.Cache.GetProblem | nl-problem/src/module.cpp:398-459 | the answer of the first source that has one, for any cache; with a truthful cache always what MySQL shows, and the cache stays truthful |
| ProblemCache.Cache.UpdateProblem | nl-problem/src/module.cpp:509-574 | returns 1 exactly for acceptable requests that change a column of an existing row; then each column is the request's own, the rest of the row stays and nothing stays cached for it |
| ProblemCache.Cache.CreateProblem | nl-problem/src/module.cpp:461-507 | for acceptable requests adds the row with the request's columns, the given id and time and no samples; touches no cache |
| ProblemCache.CheckRequest | nl-problem/src/module.cpp:206-223 | the checks in their order accept exactly the acceptable requests and fill in the two defaults |
| ProblemCache.UpdateThenGet | nl-problem/src/module.cpp:398-574 | after an update the next read, cached or not, gives the request's columns, or nothing if it hides the problem, whatever was cached before |
| ProblemCache.CreateKeepsCoherentIff | nl-problem/src/module.cpp:499-506 | the cache is still right after a create iff the problem is hidden or its id has no unexpired entry |
| ProblemCache.ProbedBeforeCreation | nl-problem/src/module.cpp:131-137 | get, create, wait up to five minutes, get: the cached answer is still empty while the direct one is the problem as requested |
| RunnerLine.ParsePrinted | nl-judge/src/sandbox.cpp:853-868 | a printed line is read back; any prefix of it is rejected or right in all but the memory figure |
| RunnerText.CollectRunnerResults | nl-judge/src/sandbox.cpp:870-893 | the loop with its counter computes the specification |
| RunnerText.CollectIsNumbered | nl-judge/src/sandbox.cpp:880-886 | for arbitrary text the results are numbered 1 to m with m <= case count |
| RunnerText.RunRoundTrip | nl-judge/src/sandbox.cpp:870-893 | printing a run and collecting it gives exactly the emitted cases |
| RunnerText.TruncatedRun | nl-judge/src/sandbox.cpp:1033-1034 | every truncation of the text gives a prefix of the cases, exact but for the last memory figure |
| RunnerText.NoiseIgnored | nl-judge/src/sandbox.cpp:880-882 | lines that do not parse change nothing |
| Pipeline.RunnerMain | nl-judge/src/sandbox.cpp:439-454 | the case loop emits cases up to and including the first failing one |
| Pipeline.JudgeInDocker | nl-judge/src/sandbox.cpp:1009-1061 | `judge` from the compilation on, statement by statement, computes the specification |
| Pipeline.RunHostSpj | nl-judge/src/sandbox.cpp:924-956 | compiling and running the checker rewrites the cases in place or gives up with its error text |
| Pipeline.StageFailures | nl-judge/src/sandbox.cpp:1010-1047 | for every outside world, what reaches the row: the compiler's text as CE iff the compilation ends with an error, timeouts as SYSTEM_ERROR, a text without a first case as MLE at the time limit for exit code 137 and as SYSTEM_ERROR with the stderr otherwise |
| Pipeline.CheckerFailures | nl-judge/src/sandbox.cpp:924-956 | SYSTEM_ERROR with its text if the checker does not compile or hangs on a passing case |
| Pipeline.SandboxIsWellNumbered | nl-judge/src/sandbox.cpp:979-1061 | whatever container and checker do, the result is an error or numbered cases |
| Pipeline.VerdictIsTheLeastFailure | nl-judge/src/sandbox.cpp:428-456 | from runner to row: status, figures and index of the least case that is not OK are written as judged and measured |
| Pipeline.AcceptedWhenAllPass | nl-judge/src/module.cpp:188-194 | from runner to row: AC with the attained maxima of the measured figures if every judgement is OK |
| Verdict.FoldCases | nl-judge/src/module.cpp:159-194 | the loop over the cases, with the host's comparison where the columns ask for it, writes what the specification says, or nothing |
| Verdict.JudgeResult | nl-judge/src/module.cpp:147-194 | the same with the sandbox's own failures before it |
| Verdict.ApplySpj | nl-judge/src/sandbox.cpp:895-922 | rewrites in place exactly the verdicts of passing cases the checker rejects, and gives up iff it hangs on one |
| Verdict.InfoText | nl-judge/src/module.cpp:112-115 | the text itself, or its first 500 characters |
| Verdict.InfoTextIs | nl-judge/src/module.cpp:112-193 | which texts are written whole |
| Verdict.AcceptedIff | nl-judge/src/module.cpp:147-194 | AC is written iff status is OK and every expected output is there and right; with the attained maxima of time and memory |
| Verdict.AcceptedExactly | nl-judge/src/module.cpp:164-169 | for arbitrary verdict words, AC means that iff the first case that does not pass does not say AC |
| Verdict.LeastFailingDecides | nl-judge/src/module.cpp:162-187 | the least failing case is written with its own word, figures and number: SYSTEM_ERROR for SE, WA if only the comparison fails; nothing is written iff the results stop short without one |
| Verdict.MaximaAre | nl-judge/src/module.cpp:174-179 | the figures written with AC are attained maxima |
| Verdict.WritesTerminal | nl-judge/src/module.cpp:59-60 | for the runner's vocabulary every status written is one the next task recognises as final |
| SubmissionStatus.VerdictOfIsSound | nl-judge/include/nloj/judge/sandbox.h:31-31 | so the verdicts of a sandbox that keeps to its documented vocabulary are ones the final write of the step system accepts |
| Verdict.VerdictTextAcIsWritten | nl-judge/src/module.cpp:164-169 | a text for which AC does not mean that |
| OutputMatch.Normalize | nl-judge/src/sandbox.cpp:1211-1232 | the string loops drop '\r', trim lines on the right and drop empty lines at the end |
| OutputMatch.RTrimCopy | nl-judge/src/sandbox.cpp:692-697 | trims blanks, tabs and '\r' on the right |
| OutputMatch.RemoveReturns | nl-judge/src/sandbox.cpp:1212-1219 | drops every '\r' |
| OutputMatch.TrimLines | nl-judge/src/sandbox.cpp:1220-1227 | each line trimmed and terminated |
| OutputMatch.JudgeOutputsMatch | nl-judge/src/sandbox.cpp:1210-1234 | holds exactly if the trimmed lines agree up to empty lines at the end; on texts without ignored characters exactly if they are equal |
| OutputMatch.JoinInjective | nl-judge/src/sandbox.cpp:1233-1233 | comparing the normalised strings is comparing those lines |
| OutputMatch.NormalizeIdempotent | nl-judge/src/sandbox.cpp:1211-1232 | normalising twice changes nothing more |
| OutputMatch.BlindToCr | nl-judge/src/sandbox.cpp:1214-1219 | a '\r' anywhere makes no difference |
| OutputMatch.BlindToTrailingBlank | nl-judge/src/sandbox.cpp:1223-1227 | nor does a blank at the end of a line |
| OutputMatch.BlindToFinalNewline | nl-judge/src/sandbox.cpp:1228-1230 | nor does a final newline |
| OutputMatch.RTrimKeeps | nl-judge/src/sandbox.cpp:692-697 | trimming stops at every other character |
| OutputMatch.SeesTheRest | nl-judge/src/sandbox.cpp:1210-1234 | of texts without an ignored character each matches only itself |
| OutputMatch.MatchExactly | nl-judge/src/sandbox.cpp:1210-1234 | two texts match iff dropping '\r', blanks before a line end and final newlines, in any order until none is left, leaves the same text |
| OutputMatch.NormalFormIsLeft | nl-judge/src/sandbox.cpp:1211-1232 | and the normal form is that text |
| Resp.Socket.RecvN | nl-common/src/redis.cpp:78-92 | exactly the next n bytes, or a failure if the peer closes first |
| Resp.Socket.RecvLine | nl-common/src/redis.cpp:94-112 | returns the bytes before the first '\r', fails without "\r\n" or beyond 16 MB |
| Resp.Socket.ReadReply | nl-common/src/redis.cpp:132-198 | the recursive reader computes the specification parser and leaves exactly its rest |
| Resp.Socket.ReadBulk | nl-common/src/redis.cpp:159-177 | a null, or the counted bytes and their "\r\n" |
| RespLaws.EncodeArray | nl-common/src/redis.cpp:114-121 | the text of an array of bulk strings |
| RespLaws.PrintReads | nl-common/src/redis.cpp:132-198 | every printed value, arrays nested to any depth, is read as what it means with exactly the tail left; an error anywhere fails |
| RespLaws.RoundTrip | nl-common/src/redis.cpp:114-198 | reading an encoded command gives its arguments but the empty ones, and leaves exactly the tail |
| RespLaws.OversizedThrows | nl-common/src/redis.cpp:155-180 | a number beyond 64 bits, or a length or count beyond 32, throws with its line consumed |
| RespLaws.Decided | nl-common/src/redis.cpp:132-198 | a reading that does not fail is not changed by more input |
| RespLaws.CutReplyFails | nl-common/src/redis.cpp:294-304 | no proper prefix of a whole reply is taken for one |
| RedisConn.Redis.CloseSock | nl-common/src/redis.cpp:46-56 | the socket is invalid afterwards |
| RedisConn.Redis.EnsureBackend | nl-common/src/redis.cpp:260-289 | connects unless in use or cooling down |
| RedisConn.Redis.Exec | nl-common/src/redis.cpp:291-306 | sends the encoded command; fails, closes and cools down, or returns what the parser reads, or throws with the rest unread |
| RedisConn.Redis.RedisUsing | nl-common/src/redis.cpp:310-314 | tells whether Redis is in use after a possible reconnect |
| RedisConn.CallAnswers | nl-common/src/redis.cpp:291-306 | a call succeeds iff the whole answer to it arrived, returns what it means and leaves nothing unread |
| RedisConn.AnswerCutAt | nl-common/src/redis.cpp:291-306 | an answer cut after any number of bytes succeeds only if none is missing |
| RedisConn.RepliesMatch | nl-common/src/redis.cpp:260-306 | along every sequence of calls each reply is the peer's answer to that very call |
| RedisConn.ReconnectRate | nl-common/src/redis.cpp:37-44 | connects are tried at least 5000 ms apart, so at most W/5000 + 1 times in any window of W ms |
| RedisConn.RateIsAttained | nl-common/src/redis.cpp:37-44 | and no smaller bound holds: polling a server that is away attains it |
| Base64Url.EncodeText | nl-user/src/auth_crypto.cpp:64-83 | the editing loops compute the specification |
| Base64Url.DecodeText | nl-user/src/auth_crypto.cpp:90-121 | the same for decoding, with every failure empty |
| Base64Url.RoundTrip | nl-user/src/auth_crypto.cpp:64-121 | decoding an encoding is the identity on all byte strings; an encoding has no dot |
| Base64Url.EncodeInjective | nl-user/src/auth_crypto.cpp:64-83 | different bytes have different texts |
| Base64Url.ForeignText | nl-user/src/auth_crypto.cpp:90-121 | a text with a character outside the alphabet decodes to nothing |
| Token.Sign | nl-user/src/auth_crypto.cpp:213-244 | the three parts, or nothing for an empty secret |
| Token.VerifyAccepts | nl-user/src/auth_crypto.cpp:246-279 | a token is accepted with a payload iff it is three dotless parts, the third the HMAC of the others, the second the payload |
| Token.SignVerify | nl-user/src/auth_crypto.cpp:213-279 | a signed token verifies and gives back the exact payload bytes, for any HMAC |
| Token.HexRoundTrip | nl-user/src/auth_crypto.cpp:24-61 | hexadecimal text is read back |
| Token.NibbleIs | nl-user/src/auth_crypto.cpp:33-44 | digits and letters of both cases are read, nothing else is |
| Token.PasswordAccepts | nl-user/src/auth_crypto.cpp:170-211 | a password is accepted iff the stored text has the four fields, the scheme, a number, a salt and 32 bytes which the key derivation gives |
| Token.PasswordRoundTrip | nl-user/src/auth_crypto.cpp:143-211 | a stored hash accepts a password iff it has a salt and 32 bytes and the key derivation cannot tell the password from the stored one |
| LoadBalance.Balancer.Find | nl-judge/src/load_balance.cpp:13-19 | the scan for an id all operations share |
| LoadBalance.Balancer.Upsert | nl-judge/src/load_balance.cpp:5-25 | replaces the machine with that id or appends one |
| LoadBalance.Balancer.SetOnline | nl-judge/src/load_balance.cpp:27-35 | changes that machine only |
| LoadBalance.Balancer.IncLoad | nl-judge/src/load_balance.cpp:37-46 | adds one and returns the new load, or -1 |
| LoadBalance.Balancer.DecLoad | nl-judge/src/load_balance.cpp:48-59 | subtracts one but not below zero |
| LoadBalance.Balancer.Pick | nl-judge/src/load_balance.cpp:61-85 | returns the online machine least in load and then id, or nothing iff none is online |
| LoadBalance.ValidOverAnyRun | nl-judge/src/load_balance.cpp:5-59 | ids stay unique and loads non-negative over any operations |
| LoadBalance.LastOperation | nl-judge/src/load_balance.cpp:5-59 | each operation acts on what the earlier ones left |
| LoadBalance.LeastIgnoresOrder | nl-judge/src/load_balance.cpp:68-79 | the choice does not depend on the order of registration |
| LoadBalance.LeastLoadedOnlineNode | nl-judge/src/node.cpp:93-118 | picks the least of the listed nodes, an unreadable load counting as 0 |
| LoadBalance.StoredLoad | nl-judge/src/node.cpp:79-115 | a stored load is read back as its number, a missing, negative or too large one as 0 |
| LoadBalance.ExactlyOneKeeps | nl-judge/src/node.cpp:206-221 | of the listed nodes seeing one snapshot exactly the picked one keeps the task; every other defers to a strictly smaller one |
| Paging.WalkPages | nl-problem/src/module.cpp:285-303 | following lastId terminates with the specified pages |
| Paging.WalkVisitsAll | nl-submit/src/module.cpp:185-203 | on a fixed table the walk is the filtered list, strictly descending, each row once |
| Paging.WalkPageIsOffsetPage | nl-problem/src/module.cpp:289-299 | page k of the walk is OFFSET page k |
| Paging.WalkKeepsStable | nl-submit/src/module.cpp:189-192 | if the table changes between pages, every row that matches throughout is still returned exactly once |
| Text.ScanDecimal | nl-judge/src/sandbox.cpp:858-859 | printing a number and scanning it gives it back, whatever non-digit follows |
| Text.LinesOfUnlines | nl-judge/src/sandbox.cpp:875-878 | joined lines are split back by successive `getline` calls |

## Left out

- The checks of `create_submission` before its INSERT, in the step system: its events insert any row with a problem, a language and code.
- HTTP routes, JSON responses, CORS, query parsing and the metrics pages of nl-api: one-branch checks.
- Registration, login and roles in nl-user, field validation and error codes: easy members.
- Verdict words outside the runner's vocabulary, in the step system: its final write takes the seven statuses a task recognises.
- JSON text: `dump` and `parse` of nlohmann are taken to be inverse; documents are trees here.
- SQL text and escaping, result buffers, the schema migration of nl-problem: statements are taken at their meaning.
- The commands `redis_get` to `redis_keys`: one `exec` each and a field of its reply.
- AMQP frames and the broker's own storage: `AMQP_STATUS_OK` is taken to mean enqueued.
- Docker, fork, pipes, signals, limits and files: the runner's attempts, the container and the checker are parameters.
- The local-process sandbox (nl-judge/src/sandbox.cpp:1068-1206) and job preparation: the same fold, no protocol of their own.
- The endless loops around a consumer's rounds (nl-judge/src/node.cpp:192-237, nl-api/src/server.cpp:751-762), sleeping and logging.
- Heartbeats, loads and node listing in Redis: the snapshot a node evaluates is a parameter of the choice.
- Liveness under a scheduler: coverage invariants and the sequential recovery theorem stand in for it.
- Strength of HMAC, PBKDF2 and random salts: arbitrary functions here.
- Integer widths of ids, page offsets and the host timeout: unbounded; `(page_num - 1) * page_size` is taken not to overflow.
- Sample cases in the cached detail: they are read by a second statement, so only the problem row is dated.
- The rebuild lock of the cache as a lock: taking it or not is a free choice, which only adds runs.
- Clocks of different hosts are one clock; L1 and Redis lifetimes run at the same pace.
- Base64Url.DecodeText: OpenSSL's decoder also skips white space around its input, which no token contains.
- RunnerLine.ParsePrinted: numbers beyond `int`, undefined for `sscanf`, are read as they stand.
- MysqlPool.Pool.Acquire: the method has one caller at a time; interleavings are the step system's.
- JudgeTask.Judge.ReclaimStaleJudging: nothing happens between its SELECT and its loop; interleavings are the step system's.
- ProblemCache.Cache.GetProblem: one process and no overlapping calls; the others are `ProblemStaleness`.
