# Verification of the distributed calculator

A user submits the text of an arithmetic expression. The service validates it, parses it, plans it as a
graph of two-argument tasks, and stores expression, tasks and outbox rows in one transaction. A relay hands
the outbox to a message broker, agents compute one operation each, and the orchestrator applies their
reports: it fills in arguments, enqueues the tasks that became ready, and in the end settles the expression.
Everything is at least once: rows are relayed again, deliveries repeated, retried, dead-lettered, inspected
and redriven, and any process may crash between any two of these.

This project models that pipeline, and three libraries around it, and proves what they are for.

**The pipeline.** Stage by stage, and then as one protocol.

- `Values`: numbers, the four operations, expression trees, their recursive evaluation and an oracle for what
  they are worth. The arithmetic is a parameter (any carrier, any four operations, any set of encodable
  values), so no theorem depends on rounding, infinities or NaN.
- `Lexer`, `ShuntingYard`, `Validator`, `Planner`: the scanners and builders as classes with the fields of
  the program, each method proved against a specification function.
- `Infix`, `Accepted`, `Placement`: what those functions mean: parsing inverts writing for every infix text;
  every accepted text, infix or not, uses each number and each operator once; and which accepted texts are infix.
- `Examples`: the shapes of the parser's own test cases, character by character, for any numbers in them.
- `Entities`, `Database`, `Broker`: the rows, the guarded updates, the transactions as methods of `Repo`; and
  one generic message flow (main queue, retry queue, dead-letter queue, unacknowledged deliveries).
- `Pipeline`: the whole system as a state and its steps. Every SQL transaction is one step (the row locks of
  the fan-in justify this), publishing, confirming, committing, delivering and acknowledging are separate
  steps, so a crash between any two of them is just a run in which the second does not happen. Task and
  expression identifiers are positions in the tables, which makes them fresh and distinct.
- `Consistency`, `FanIn`, `Transactions`, `Creation`, `Invariant`: the invariant of every run.
- `Consumers`: the agent's handler, the result consumer and the relay as imperative code, each proved to do
  exactly a sequence of protocol steps; so what holds of the protocol holds of the code.
- `Outcome`, `Expressible`, `Termination`, `Recovery`: the theorems. Results agree with recursive evaluation and
  do not depend on the schedule; no work is ever lost; when nothing is on its way everything is settled; effects
  are exactly once; without faults every run is finite and finishes exactly what can be finished; and after any
  faults the same end can still be reached.

**The audit log.** `Batcher`, `AuditStore`, `AuditIngest` (the ingest pipeline with the batcher's protocol
inside it), `Keyset` (the paged query and walks over pages), `AuditLog`, which puts writing and reading together,
and `AuditTrail`, which joins the log to the pipeline: what the outbox records arrives in the log.

**Two libraries.** `RateLimit` (token buckets with eviction) and `WorkerPool` (auto-scaling, draining pool).

Six places where the code does less than a reader might expect are stated as theorems, each with its exact
condition:

- An expression can be brought to an end if and only if its tree is expressible or divides by zero
  (`Termination.EndedExactly`, `Recovery.Recovers`); the product of two long literals is accepted and is neither
  (`Expressible.OverflowAccepted`).
- An accepted text is infix if and only if its operands and parentheses stand where they are expected
  (`Placement.AcceptedInfix`); `1()` is accepted all the same (`Placement.EmptyCallNotInfix`).
- Delivery of an audit event is idempotent if and only if the event carries its own time
  (`AuditIngest.StoredOnceExactly`).
- Walks over the log end if and only if no matching row has the unset time (`Keyset.WalksEndExactly`); the write
  path never stores one (`AuditIngest.RowsWellFormed`).
- Evicting rate-limit buckets is unnoticeable if and only if the TTL lets an empty bucket fill up
  (`RateLimit.EvictionExact`).
- Closing the pool guarantees the tasks accepted before it began and no others (`WorkerPool.GuaranteedExactly`).

README.md line 166 of the repository draws an edge from a running task back to ready. No code takes it, and the
model follows the code.

## Model

| member | source | states |
|---|---|---|
| Values.EvalFailsByDivision | backend/internal/usecase/worker/worker.go:64-78 | Strict recursive evaluation of a tree fails in one way only, by dividing by zero. |
| Values.EvalIsWorth | backend/internal/usecase/expression/parser_test.go:11-31 | Folding a tree with the agents' computation agrees with the oracle `Worth`, which is written straight from the four operations: the same value, or a division by zero exactly where some divisor is zero. |
| Values.OperationsAre | backend/internal/usecase/worker/worker.go:64-78 | Each operation by itself: plus adds, minus subtracts the second from the first, times multiplies, and a division divides the first by the second, or fails if and only if that is zero. |
| Lexer.Scanner.Step | backend/internal/usecase/expression/parser.go:87-109 | One step consumes at least a character, finds one token unless that character is a blank, and keeps the tokens found so far plus the tokens still ahead equal to the tokens of the whole text; on an error the whole text has that error. |
| Lexer.Scanner.ScanNumber | backend/internal/usecase/expression/parser.go:111-124 | Takes exactly the longest run of digits and dots as one number token and expects an operator next, or fails if the run is no number. |
| Lexer.Scanner.ScanOperator | backend/internal/usecase/expression/parser.go:126-141 | Appends exactly one token: where an operand is expected a minus becomes a negation and any other operator is an error; elsewhere it is that binary operator. |
| Lexer.Tokenize | backend/internal/usecase/expression/parser.go:73-84 | The scanning loop computes the token specification of the trimmed text; no tokens is an error. |
| ShuntingYard.AstBuilder.PopOp | backend/internal/usecase/expression/parser.go:206-229 | Folds the top operator over its operands, lowering a negation to a subtraction from zero. |
| ShuntingYard.AstBuilder.CloseParen | backend/internal/usecase/expression/parser.go:190-201 | Folds down to the matching parenthesis, or reports that there is none. |
| ShuntingYard.AstBuilder.Build | backend/internal/usecase/expression/parser.go:149-167 | The stack machine computes the tree the specification assigns to the tokens. |
| ShuntingYard.Parse | backend/internal/usecase/expression/parser.go:25-32 | Tokenizing and building together compute the parse specification of the text. |
| ShuntingYard.ParseFails | backend/internal/usecase/expression/parser.go:73-229 | Every text that does not parse is an invalid-input error, wherever it goes wrong. |
| Infix.LexText | backend/internal/usecase/expression/parser.go:73-141 | An infix text with any blanks between its tokens is read as exactly its tokens. |
| Infix.FeedTree | backend/internal/usecase/expression/parser.go:169-241 | Feeding the tokens of an infix tree leaves the stacks below alone and the tree, and nothing else, pending on top; this is where precedence and associativity are proved. |
| Infix.ParseWritten | backend/internal/usecase/expression/parser.go:22-46 | Every infix text, with the parentheses precedence and left associativity require or with more, any blanks inside and any white space around, parses to exactly the tree it means. |
| Infix.ParseInvertsWrite | backend/internal/usecase/expression/parser_test.go:36-51 | Every formula, written by `Write`, parses back to its own tree. |
| Infix.WriteIsFewest | backend/internal/usecase/expression/parser.go:37-46 | `Write` uses no more parentheses than any other well-formed way of writing the formula. |
| Examples.ANumber | backend/internal/usecase/expression/parser_test.go:36-51 | Digits, or digits with a decimal point between digits, parse as the number they read as. |
| Examples.APaddedNumber | backend/internal/usecase/expression/parser.go:73-84 | Blanks, tabs and line ends around a number do not matter. |
| Examples.TwoNumbers | backend/internal/usecase/expression/parser_test.go:36-51 | Two numbers with one of the four operators between them parse to that operation on them, in this order. |
| Examples.LeftAssociative | backend/internal/usecase/expression/parser_test.go:36-51 | For any numbers, x - y - z is (x - y) - z and x / y / z is (x / y) / z, with spaces. |
| Examples.Tighter | backend/internal/usecase/expression/parser_test.go:36-51 | For any numbers, x+y*z is x+(y*z) and x-y/z is x-(y/z). |
| Examples.Parenthesised | backend/internal/usecase/expression/parser_test.go:36-51 | For any numbers, (x+y)*z multiplies the sum. |
| Examples.Negations | backend/internal/usecase/expression/parser_test.go:36-51 | For any numbers, -x+y, x*-y and -(x+y) subtract from zero just what the minus stands before. |
| Accepted.ParseAccounts | backend/internal/usecase/expression/parser.go:149-229 | For any accepted text, the number tokens in order are the leaves in order without the zeros of lowered negations, and the inner nodes are the operator tokens. |
| Accepted.ParseCountsOperators | backend/internal/usecase/expression/parser.go:149-229 | For any accepted text, the number of operations equals the number of operator tokens. |
| Accepted.ParseEncodable | backend/internal/usecase/expression/parser.go:111-124 | Every literal of an accepted text can be put in a message. |
| Accepted.EmptyCallAccepted | backend/internal/usecase/expression/parser.go:94-103 | "1()" parses as 1, so not every accepted text is infix. |
| Placement.AcceptedInfix | backend/internal/usecase/expression/parser.go:87-141 | An accepted text is infix if and only if every number and opening parenthesis stands where an operand is expected and every closing parenthesis where none is: the guard that the scanner has for operators only. |
| Placement.InfixIsPlaced | backend/internal/usecase/expression/parser.go:87-141 | Every infix text is accepted, and its tokens stand right. |
| Placement.ReadAll | backend/internal/usecase/expression/parser.go:149-229 | Wherever the builder is in a text whose tokens stand right, what has been read and what is still to be read are together one well-formed written tree, if the builder accepts. |
| Placement.EmptyCallNotInfix | backend/internal/usecase/expression/parser.go:94-103 | "1()" is accepted and no infix text. |
| Placement.TrimMeans | backend/internal/usecase/expression/parser.go:74 | Trimming takes white space, by the code points of Unicode, and all there is, off both ends. |
| Validator.ExprScan.Check | backend/pkg/validator/validator.go:44-67 | One character updates depth, deepest depth, last character and digits seen as specified, or is refused. |
| Validator.ExprScan.Finish | backend/pkg/validator/validator.go:69-83 | Accepts exactly the final states that are closed, shallow enough, contain a digit and do not end in an operator. |
| Validator.ValidateExpression | backend/pkg/validator/validator.go:18-35 | No error if and only if the specification accepts; every error is an invalid-input error. |
| Validator.AcceptsMeans | backend/pkg/validator/validator.go:18-92 | What acceptance means, in terms of the text alone: after trimming not empty and at most 512 long; only digits, points, parentheses, the four operators, spaces and tabs, and at least one digit or point; never closing more than opened, at most 64 deep, balanced; no plus, times or over after a plus, times or over; no operator at the end. If and only if. |
| Validator.WrittenAccepted | backend/pkg/validator/validator.go:18-35 | A well-formed infix text passes if and only if it is at most 512 long after trimming and nested at most 64 deep. |
| Planner.PlanBuilder.Build | backend/internal/usecase/expression/planner.go:24-66 | The recursive closure appends exactly the post-order plan to the shared task list, and fails if and only if the list would exceed 256 tasks. |
| Planner.PlanExpression | backend/internal/usecase/expression/planner.go:17-74 | A leaf is immediate; otherwise the plan with the last task marked as root, or an error if and only if there are more than 256 operations. |
| Planner.PlanStructure | backend/internal/usecase/expression/planner.go:24-66 | Children before parents; each slot has exactly one of a value and a task; the counter counts the task slots. |
| Planner.PlanIsTree | backend/internal/usecase/expression/planner.go:24-72 | Every task but the last is referenced by exactly one slot, the last by none, and no slot reaches outside the plan. |
| Planner.PlanDenotes | backend/internal/usecase/expression/planner.go:24-72 | Rebuilding the tree from the last task of a stored plan gives back the planned tree. |
| Database.Repo.EnqueueTask | backend/internal/repo/persistent/repo.go:316-333 | Appends one row with the task, its expression, operation and both arguments if and only if both arguments are there and can be encoded; otherwise fails without a change. |
| Database.Repo.EnqueueAudit | backend/internal/repo/persistent/repo.go:342-353 | Appends one unpublished row for each audit, in order. |
| Database.Repo.UnlockReadyDependents | backend/internal/repo/persistent/repo.go:378-401 | Enqueues and marks exactly the dependents whose counter is zero, in the order the updates returned them. |
| Database.Repo.ApplyResultTx | backend/internal/repo/persistent/repo.go:194-258 | The fan-in transaction: whole new state, unchanged state for a duplicate, rolled back on an error; the last row is the completion of the task, or of the expression when the task is its root. |
| Database.Repo.ApplyFailureTx | backend/internal/repo/persistent/repo.go:261-291 | Fails an unsettled task and its expression together and records both; a settled task changes nothing. |
| Database.Repo.Handle | backend/internal/usecase/scheduler/scheduler.go:98-148 | Each kind of agent message is its own transition; a started message makes a ready task running and changes nothing else, whatever task it names. |
| Database.Repo.CreateExpressionTx | backend/internal/repo/persistent/repo.go:47-83 | Stores expression, tasks and the rows of the ready tasks, or nothing. |
| Database.Repo.FinalizeImmediateTx | backend/internal/repo/persistent/repo.go:86-100 | Stores a taskless expression as done, with both audit rows. |
| Database.Repo.RelayOutbox | backend/internal/repo/persistent/repo.go:161-183 | Takes exactly the minimum of the limit, 4096 and the number of unpublished rows no other relay holds, the oldest first; sends exactly what the broker takes of these; a commit publishes exactly the confirmed ones, a rollback none. When all rows fit, every publish is confirmed and the commit lands, all are sent and published. |
| Database.Repo.PruneOutbox | backend/internal/repo/persistent/sqlcgen/outbox.sql.go:35-38 | Deletes only published rows. |
| Database.Claimed | backend/internal/repo/persistent/sqlcgen/outbox.sql.go:48-54 | A batch is in row order, at most the limit, unpublished and unlocked; a claimable row is left out only when the batch is full, and then comes after every claimed one. |
| Database.BatchRelays | backend/internal/repo/persistent/repo.go:161-183 | The number of rows a batch has, for every table, lock set and limit, and that a batch with room, confirmed and committed, leaves no claimable row unpublished. |
| Database.BatchMarks | backend/internal/repo/persistent/repo.go:161-183 | Row by row what a batch publishes, leaves alone and sends. |
| Broker.NothingLost | backend/pkg/rabbitmq/rabbitmq.go:500-542 | In every run, every message that ever entered a flow has a live copy or its handler returned nil. |
| Broker.LeavesOnlyHandled | backend/pkg/rabbitmq/rabbitmq.go:339-405 | Until a handler returns nil, whatever is retried, dead-lettered, requeued, inspected, redriven or redelivered, a copy stays in main, retry, dead-letter or unacknowledged. |
| Broker.AttemptsBounded | backend/pkg/rabbitmq/rabbitmq.go:513-519 | Every copy's attempt counter stays below the limit in every run. |
| Broker.RetriesCounted | backend/pkg/rabbitmq/rabbitmq.go:513-526 | In every run a copy's counter is the one its message was published with, or zero after a redrive, plus the number of retries since; so the limit bounds the retries between redrives. |
| Broker.DispatchRuns | backend/pkg/rabbitmq/rabbitmq.go:508-541 | The policy: success acknowledges; a retryable error with attempts left parks a copy with the next attempt; any other error parks a dead letter; an unconfirmed park requeues the original, even when the broker did take the copy; and where the ack or nack is lost the delivery stays unacknowledged. |
| Broker.RedriveRuns | backend/pkg/rabbitmq/rabbitmq.go:375-405 | A redrive, with any publish, ack or get going wrong, is a run of protocol steps, so it loses nothing. |
| Broker.RedriveMoves | backend/pkg/rabbitmq/rabbitmq.go:375-405 | The messages a redrive counts are the oldest dead letters, in order, and are on the main queue with their attempts reset; they are dead letters no more, except possibly for the last one. |
| Broker.RedriveReaches | backend/pkg/rabbitmq/rabbitmq.go:375-405 | A redrive goes on until its limit or the dead letters are used up or a turn goes wrong: it takes away exactly as many dead letters as turns went well. |
| Broker.RedriveLost | backend/pkg/rabbitmq/rabbitmq.go:397-402 | That one is the message whose ack was lost. |
| Broker.RedriveKeeps | backend/pkg/rabbitmq/rabbitmq.go:375-405 | A redrive touches dead letters only. |
| Broker.Queues.Dispatch | backend/pkg/rabbitmq/rabbitmq.go:500-542 | The policy, place by place: no error acknowledges and adds no copy; an unavailable, rate-limited or overloaded error with attempts left adds a retry copy with the next attempt, any other a dead letter with the same; the original goes when that copy is confirmed and is requeued when not; a lost ack or nack leaves it unacknowledged. The result is the run of steps that `DispatchRuns` describes. |
| Broker.Queues.RequeueDlq | backend/pkg/rabbitmq/rabbitmq.go:375-405 | The redrive loop computes the redrive specification and its count, with failing publishes, acks and gets; it reports an error only when one of these went wrong, and stops early without one only when no dead letter is left. |
| Broker.Queues.InspectDlq | backend/pkg/rabbitmq/rabbitmq.go:339-371 | Returns the oldest dead letters in order, or an error exactly when a get fails on the way, and leaves the flow as it was. |
| FanIn.UnlockComplete | backend/internal/repo/persistent/repo.go:316-333 | Unlocking complete rows cannot fail. |
| FanIn.DepsName | backend/internal/repo/persistent/sqlcgen/tasks.sql.go:71-76 | The rows the two fills return with counter zero name exactly the tasks this result unlocks, although a task waiting in both slots is returned twice. |
| FanIn.TasksAfter | backend/internal/repo/persistent/repo.go:215-235 | After the fills and the unlocks every task is as the per-task description of a fan-in says. |
| FanIn.RowsAfter | backend/internal/repo/persistent/repo.go:378-401 | The transaction enqueues one message for each unlocked task and nothing else. |
| Transactions.ResultApplies | backend/internal/repo/persistent/repo.go:194-258 | In a consistent table the fan-in transaction never fails, so the unresolved-arguments error is unreachable. |
| Transactions.ResultKeeps | backend/internal/repo/persistent/repo.go:194-258 | A true result keeps the database consistent, settles one task, and moves rows only forward. |
| Transactions.FailureKeeps | backend/internal/repo/persistent/repo.go:261-291 | So does a true failure. |
| Transactions.StartedKeeps | backend/internal/repo/persistent/sqlcgen/tasks.sql.go:252-256 | So does a started message, however late and for whatever task. |
| Creation.CreateApplies | backend/internal/repo/persistent/repo.go:47-83 | Storing a plan cannot fail. |
| Creation.CreateKeeps | backend/internal/repo/persistent/repo.go:47-83 | Storing a plan keeps the database consistent and touches no older row. |
| Creation.ImmediateKeeps | backend/internal/repo/persistent/repo.go:86-100 | So does storing a literal. |
| Pipeline.SubmitExpression | backend/internal/usecase/expression/service.go:33-89 | No error if and only if the text passes validation, parses and has at most 256 operations; every error is invalid input and leaves the tables as they were. On success exactly one expression with this text is appended and one submission record for it, older rows untouched: a literal is done with its value; otherwise the expression is pending, there is one new task for each operation, the last is the root and denotes the parsed tree, a task whose counter is zero is ready and its message recorded once, and the others are pending. |
| Pipeline.SubmitMeans | backend/internal/usecase/expression/service.go:33-89 | The same of the submit step of the protocol, for every consistent database and every text. |
| Invariant.StepInv | backend/internal/usecase/scheduler/scheduler.go:98-174 | Every step of every participant keeps the invariant of the whole system. |
| Invariant.RunInv | backend/internal/usecase/scheduler/scheduler.go:98-174 | The invariant holds along every run. |
| Consumers.HandleTask | backend/internal/controller/amqp/v1/consumers.go:95-150 | The agent's handler with the dispatch around it. It sends a started message unless the broker refuses it, then a report with what the operation is worth, or the failure when a divisor is zero. A confirmed report acknowledges the task and adds no copy of it; a canceled or unconfirmed one is retried with the next attempt while that is below 5; a value that cannot be encoded is dead-lettered. Its exact final state, and that protocol steps lead there, also when acks or nacks fail. |
| Consumers.ReportMeans | backend/internal/usecase/worker/worker.go:64-78 | The report of a task, operation by operation, against the oracle `Worth`. |
| Consumers.HandleDelivery | backend/internal/controller/amqp/v1/consumers.go:48-60 | The result consumer. In a reachable state a result whose transaction lands is applied and acknowledged, with no copy added; a copy is parked, or the delivery requeued, only when the commit failed or its outcome is not known, by the policy of `Dispatch`. Its exact final state, and that protocol steps lead there, also when the ack or nack is lost. |
| Consumers.PublishAll | backend/internal/usecase/scheduler/scheduler.go:151-173 | The task messages of the batch, and no others, are on the flow in row order, each on the main queue with its attempts at zero. |
| Consumers.RelayOnce | backend/internal/usecase/scheduler/scheduler.go:150-174 | One relay transaction, with the retries of each publish inside: the count, the rows sent and the rows marked as `RelayOutbox` states them, their messages on the main queue with attempts at zero, and that protocol steps lead there, also when the commit fails after the publishes. |
| Outcome.TaskMeans | backend/internal/usecase/expression/parser_test.go:11-31 | A done task holds the value of its subtree; a failed task's subtree does not evaluate. |
| Outcome.FinishedMeans | backend/internal/usecase/expression/parser_test.go:11-31 | In every run, an expression marked done holds what its parsed text is worth by the oracle `Worth`, and one marked failed has a text whose evaluation divides by zero. |
| Outcome.ScheduleIndependent | backend/internal/repo/persistent/repo.go:193-291 | Two runs that finish the same text agree on status and result, whatever the interleaving and the faults. |
| Outcome.WrittenFormulaEvaluated | backend/internal/usecase/expression/service.go:33-89 | From an infix text to the stored row: a finished expression is done with the value the formula is worth by the oracle `Worth`, or failed if and only if the formula divides by zero. |
| Outcome.ReachableNoLostWork | backend/internal/repo/persistent/repo.go:160-183 | In every reachable state each ready or running task is carried by an unpublished row, a task message or a final result message that is queued, waiting for retry, dead-lettered or unacknowledged. |
| Outcome.QuiescentSettled | backend/internal/repo/persistent/repo.go:215-251 | When no unpublished row and no live message is left, every submitted expression is done or failed. |
| Outcome.ExactlyOnce | backend/internal/repo/persistent/repo.go:196-252 | Over any run: one task row for each task that has left pending and none otherwise, one task.done exactly for each done task, one expression.done exactly for each done expression, one submission record; a failed expression has one failure record for each failed task. |
| Outcome.AncestorsPending | backend/internal/repo/persistent/sqlcgen/tasks.sql.go:71-76 | Every task above one that is not done is pending. |
| Outcome.AncestorsStayPending | backend/internal/repo/persistent/sqlcgen/tasks.sql.go:71-76 | Whatever happens after a task has failed, every task above it stays pending. |
| Outcome.StatusExact | backend/internal/repo/persistent/sqlcgen/expressions.sql.go:44-64 | A planned expression is done if and only if its root is, failed if and only if some task is, never both, and in progress if and only if some task is done but neither holds. |
| Outcome.StepForward | backend/internal/repo/persistent/sqlcgen/tasks.sql.go:25-56 | Statuses, arguments, results and outbox rows only move forward, and terminal ones never change. |
| Outcome.RunForward | backend/internal/repo/persistent/sqlcgen/tasks.sql.go:25-56 | The same over whole runs: tasks and expressions only move forward, a row keeps its payload, is never unpublished again, and a pruned row stays pruned. |
| Outcome.ResultStaysInside | backend/internal/repo/persistent/repo.go:194-258 | A message changes only tasks of its own expression. |
| Outcome.FanInCounts | backend/internal/repo/persistent/sqlcgen/tasks.sql.go:71-123 | For every task, the counter is the number of slots whose producer is not done, positive while pending; a slot holds a value if and only if it is a literal or its producer is done, and then the producer's result. |
| Termination.FaultFreeDecreases | backend/internal/usecase/scheduler/scheduler.go:98-174 | Every step without a fault decreases a measure over rows, messages and task stages. |
| Termination.FaultFreeTerminates | backend/internal/usecase/scheduler/scheduler.go:98-174 | So a run without faults is no longer than the measure of where it starts. |
| Expressible.ExpressedEval | backend/internal/usecase/worker/worker.go:64-78 | A tree is expressible when all its intermediate values can be encoded, and divides when two expressed operands meet in a division by zero; the first implies its value, the second its failure, so they exclude each other. |
| Expressible.SettleableMeans | backend/internal/controller/amqp/v1/consumers.go:141-145 | A tree is expressible or divides if and only if it divides or no value of two expressed operands in it overflows what can be encoded. |
| Expressible.ReachableFinishedOnlyIf | backend/internal/controller/amqp/v1/consumers.go:141-145 | In every reachable state, whatever has happened, only an expression whose tree is expressible or divides is finished. |
| Expressible.FinishedOnlyIf | backend/internal/repo/persistent/repo.go:194-291 | Done only with the expressed value, failed only with a tree that divides. |
| Expressible.OverflowAccepted | backend/pkg/validator/validator.go:18-35 | The product of two literals whose product cannot be encoded, as of a 300-digit and a 200-digit number, passes validation and parses, and is neither expressible nor dividing. |
| Expressible.OverflowNeverFinishes | backend/internal/controller/amqp/v1/consumers.go:141-145 | Such an expression is finished in no reachable state. |
| Termination.EndedExactly | backend/internal/controller/amqp/v1/consumers.go:108-145 | Where no step without a fault is left, an expression is done if and only if its tree is expressible, failed if and only if it divides, and otherwise has a task whose message is in the dead-letter queue because its value cannot be encoded. |
| Termination.FaultFreeOutcome | backend/internal/repo/persistent/repo.go:378-401 | From any state no fault has touched, a run without faults is finite, and where it cannot be continued exactly the expressions whose trees are expressible or divide are finished. |
| Recovery.Recovers | backend/pkg/rabbitmq/rabbitmq.go:373-405 | From every reachable state, whatever has gone wrong, expiries in the retry queues, confirmed redrives and steps without faults lead to where every expression has the end its tree allows. |
| Batcher.ChunksKeep | backend/pkg/batcher/batcher.go:110-130 | Cutting a buffer keeps its items in order; chunks are not empty and all but the last are full. |
| Batcher.Batcher.Add | backend/pkg/batcher/batcher.go:66-77 | Appends the item, and leaves a wake-up token exactly when the buffer is full or one was there. |
| Batcher.Batcher.SwapAndFlush | backend/pkg/batcher/batcher.go:110-130 | Empties the active buffer and flushes exactly its chunks. |
| Batcher.Conservation | backend/pkg/batcher/batcher.go:66-77 | In every interleaving, what is flushed, then what is being flushed, then what is buffered are the items added, in order, each once; chunks have 1 to the maximum of items. |
| Batcher.NoLostWakeup | backend/pkg/batcher/batcher.go:66-77 | Before the stop, a full buffer has a wake-up token, a producer about to leave one, or the loop about to swap. |
| Batcher.CloseFlushes | backend/pkg/batcher/batcher.go:86-106 | When the loop has exited, every item added before the stop has been flushed exactly once, in order. |
| Batcher.CloseReturns | backend/pkg/batcher/batcher.go:86-106 | After the stop the loop can always reach its exit by steps that add nothing. |
| Batcher.FlushSteps | backend/pkg/batcher/batcher.go:110-130 | The loop's flush steps have the effect of the method's loop, whatever is added meanwhile. |
| AuditStore.InsertAllKeeps | backend/internal/repo/auditstore/sqlcgen/events.sql.go:82-91 | An insert only appends, stores every event, and keeps the keys unique. |
| AuditStore.InsertedFrom | backend/internal/repo/auditstore/sqlcgen/events.sql.go:82-91 | Every row it adds is one of the events. |
| AuditStore.RetryIsNoOp | backend/internal/repo/auditstore/sqlcgen/events.sql.go:105-108 | Inserting a batch again changes nothing. |
| AuditStore.Store.InsertBatch | backend/internal/repo/auditstore/store.go:35-64 | The whole batch or nothing, and the number of rows that were new; an error may also hide a commit. |
| AuditIngest.Validate | backend/internal/usecase/audit/ingest.go:140-154 | Refuses exactly the events without identifier or type; fills in the clock's time and the service "unknown" where they are missing, and changes nothing else. |
| AuditIngest.Ingestor.Admit | backend/internal/usecase/audit/ingest.go:104-114 | Ingest as far as the batcher: refuses exactly the incomplete events; answers at once exactly the complete ones whose identifier a working dedup store knows; hands on the others, completed. |
| AuditIngest.AdmitLeads | backend/internal/usecase/audit/ingest.go:104-114 | The steps of a call in the protocol end as `Admit` does. |
| AuditIngest.Ingestor.Flush | backend/internal/usecase/audit/ingest.go:178-202 | One insert; then the same single answer to every item, nil if and only if the insert committed and unavailable otherwise; identifiers are marked only when the insert succeeded, and then every one whose marking gets through. |
| AuditIngest.FlushLeads | backend/internal/usecase/audit/ingest.go:178-202 | The callback's steps in the protocol have the effect of `Flush`. |
| AuditIngest.SendFromOnce | backend/internal/usecase/audit/ingest.go:188-200 | Answering a batch gives each of its items one value, and no other item any. |
| AuditIngest.NilMeansStored | backend/internal/usecase/audit/ingest.go:104-128 | In every run with failed and ambiguous inserts, timeouts, crashes, redeliveries, other replicas and a dedup store that forgets: an Ingest that returned nil has its event stored, and a marked identifier has a row. |
| AuditIngest.FlushNeverBlocks | backend/internal/usecase/audit/ingest.go:178-202 | No completion channel gets a second value, so the callback always finds room to answer. |
| AuditIngest.RowsOnlyAppended | backend/internal/repo/auditstore/store.go:1-2 | No step of the write path changes or removes a row: rows are only ever appended. |
| AuditIngest.RowsWellFormed | backend/db/audit/migrations/00001_init.sql:14 | Keys are unique and every row has an identifier, a type, a service and a time. |
| AuditIngest.CloseAnswers | backend/internal/usecase/audit/ingest.go:88 | After Close every item added before it has had its one answer. |
| AuditIngest.WaitingReturns | backend/internal/usecase/audit/ingest.go:115-128 | In every reachable state a waiting call can give up, as unavailable, and can return exactly when its item has been answered, with that answer. |
| AuditIngest.DeliveryAcknowledged | backend/internal/usecase/audit/ingest.go:104-128 | When nothing is in hand and nothing goes wrong, an event with an identifier and a type is stored, its identifier marked, and the call that brought it returns nil. |
| AuditIngest.StoredOnce | backend/internal/repo/auditstore/sqlcgen/events.sql.go:82-91 | An identifier always delivered with the same time is stored at most once, however often it is delivered. |
| AuditIngest.StoredOnceExactly | backend/internal/usecase/audit/ingest.go:147-149 | Delivery of an event is idempotent if and only if it carries its own time. |
| Keyset.OrderedSpec | backend/internal/repo/auditstore/sqlcgen/events.sql.go:125-137 | The query selects exactly the rows that match and lie below the cursor, strictly descending. |
| Keyset.PageSpec | backend/internal/repo/auditstore/sqlcgen/events.sql.go:125-137 | A page is the first of them: what it leaves out comes after all of it, and it leaves something out only when full. |
| Keyset.QueryEvents | backend/internal/controller/grpc/auditv1/server.go:76-115 | Refuses exactly the cursors that do not parse. Otherwise every event returned is stored and meets each filter field and the cursor, spelled out field by field; they are in strictly descending order; there are at most as many as asked for, or 50 if that is not from 1 to 200; a stored event that is wanted is missing only if the page is full and it comes later; and the cursor returned reads back as the place of the last one. |
| Keyset.WalkDescends | backend/internal/controller/grpc/auditv1/server.go:104-113 | Following cursors, with any page sizes and rows stored meanwhile, goes strictly down: no row repeats. |
| Keyset.WalkMissesNothing | backend/internal/controller/grpc/auditv1/server.go:104-113 | A walk that came to an empty page has shown every matching row that was there when it began. |
| Keyset.WalkExact | backend/internal/controller/grpc/auditv1/server.go:104-113 | On a table that does not change, a walk ends and shows every matching row once, in order. |
| Keyset.WalksEndExactly | backend/internal/repo/auditstore/store.go:88-91 | Walks end, whatever the page size, if and only if no matching row has the unset time. |
| AuditLog.AcknowledgedIsShown | backend/internal/usecase/audit/ingest.go:104-128 | For every acknowledged event, a walk that begins later and ends shows a row with its identifier, and with its key unless the dedup store answered, whatever is written meanwhile; no key is shown twice. |
| AuditLog.AcknowledgedKeyIsShown | backend/internal/usecase/audit/ingest.go:104-128 | When every delivery of the event carries its time, its key is shown also if the dedup store answered. |
| AuditLog.ShownIsStored | backend/internal/controller/grpc/auditv1/server.go:104-113 | Every event a walk shows, whatever is written meanwhile, is a stored row and matches the filter. |
| AuditTrail.RunInv | backend/internal/controller/amqp/v1/consumers.go:176-192 | The pipeline, the audit flow and the ingest pipeline together keep, in every run, that a delivery whose handler returned nil has its event stored and that a published audit row still has a copy or was handled. |
| AuditTrail.AuditNotLost | backend/internal/repo/persistent/repo.go:341-353 | In every reachable state, whatever fails, each audit row of the outbox is unpublished, or its event is live on the audit flow, or a row with its identifier is in the log. |
| AuditTrail.AuditCanArrive | backend/internal/controller/amqp/v1/consumers.go:176-192 | From every reachable state, whatever has gone wrong, the event of each audit row can still be brought into the log, if it has an identifier and a type: from the outbox, any queue, a dead letter, or a consumer or operator that holds it. |
| AuditTrail.RecordedIsLogged | backend/internal/repo/persistent/repo.go:196-252 | When nothing is on its way, the submission of every expression, the completion of every done task and expression and the failure of every failed task are in the log. |
| RateLimit.Limiter.AllowN | backend/pkg/ratelimit/ratelimit.go:71-96 | The decision and the new bucket are those of the specification; a new key starts full; other keys are untouched. |
| RateLimit.Limiter.Sweep | backend/pkg/ratelimit/ratelimit.go:107-127 | The loop over the table evicts exactly the buckets idle for longer than the TTL and leaves the others as they are. |
| RateLimit.Config.Defaults | backend/pkg/ratelimit/ratelimit.go:27-37 | A valid configuration is kept as it is; unset fields take 10 a second, a burst of the rate, and ten minutes. |
| RateLimit.Ledger | backend/pkg/ratelimit/ratelimit.go:71-96 | What a bucket holds has been paid for, in whatever order timestamps reach the lock. |
| RateLimit.WindowBound | backend/pkg/ratelimit/ratelimit.go:71-96 | From any request of a key to any later granted one, the key gets at most the burst plus the rate times the time between, in whatever order timestamps reach the lock. |
| RateLimit.EvictingWindowBound | backend/pkg/ratelimit/ratelimit.go:71-127 | The same bound for the evicting limiter after any history on an ordered clock. |
| RateLimit.DeniedExactly | backend/pkg/ratelimit/ratelimit.go:71-96 | After any history, in any order of timestamps: a request is denied if and only if granting it would take more than the burst plus the rate times the length out of some window ending with it, which starts with the request itself or with an earlier one of the key. In particular a denied request costs nothing. |
| RateLimit.EvictingDeniedExactly | backend/pkg/ratelimit/ratelimit.go:71-127 | The same for the evicting limiter on an ordered clock, when the TTL lets an empty bucket fill up. |
| RateLimit.EvictionExact | backend/pkg/ratelimit/ratelimit.go:107-127 | Eviction changes no decision of any run on an ordered clock if and only if the rate times the TTL reaches the burst. |
| WorkerPool.SizeBounds | backend/pkg/workerpool/workerpool.go:143-173 | Until Close, the counter is the permanent workers plus the live transient ones plus the one being started, between Min and Max, despite the unlocked check and decrement. |
| WorkerPool.Config.Defaults | backend/pkg/workerpool/workerpool.go:27-48 | A valid configuration is kept as it is; missing or excessive fields get their defaults and bounds. |
| WorkerPool.IdleEnds | backend/pkg/workerpool/workerpool.go:150-173 | A transient worker whose idle timer fires above the minimum can end, which takes one from the counter; any other waits on. |
| WorkerPool.ShrinksToMin | backend/pkg/workerpool/workerpool.go:150-173 | From every reachable state of an open pool, steps that submit nothing lead to where every accepted task has run exactly once and the pool has its minimum of workers. |
| WorkerPool.TakenInOrder | backend/pkg/workerpool/workerpool.go:95-104 | In every run the queue holds the tasks accepted last, in order, so they are taken in the order they were accepted. |
| WorkerPool.RunAtMostOnce | backend/pkg/workerpool/workerpool.go:150-195 | No accepted task runs twice. |
| WorkerPool.CloseDrains | backend/pkg/workerpool/workerpool.go:137-141 | When Close returns, every task accepted before it began has run exactly once. |
| WorkerPool.CloseReturns | backend/pkg/workerpool/workerpool.go:137-141 | After Close began, steps that accept nothing can always lead to where every goroutine has ended. |
| WorkerPool.LateTaskLost | backend/pkg/workerpool/workerpool.go:95-104 | In every pool with room in its queue there is a run in which a task accepted after Close began never runs. |
| WorkerPool.GuaranteedExactly | backend/pkg/workerpool/workerpool.go:95-141 | Close guarantees that the tasks accepted before it began run exactly once, and of all accepted tasks it does not: the condition is exactly the moment of acceptance. |
| WorkerPool.TickGrows | backend/pkg/workerpool/workerpool.go:226-237 | An uninterrupted tick of the protocol adds what the growing loop adds. |
| WorkerPool.Pool.MaybeGrow | backend/pkg/workerpool/workerpool.go:226-237 | Adds half the backlog plus one worker, or fills the pool if that is too many, and none without a backlog. |
| WorkerPool.Pool.TrySubmit | backend/pkg/workerpool/workerpool.go:106-117 | Queues the task or not; refuses only when closed or full, and never overfills the queue. |
| WorkerPool.Pool.Drain | backend/pkg/workerpool/workerpool.go:185-195 | Runs whatever is queued, in order. |

## Left out

- IEEE 754 and number parsing: the carrier, the four operations, the zero test, encodability and the reading of a digit run are parameters; the one assumption about them is that zero and every literal that parses can be encoded.
- The unknown-operation branch of `Compute`: operations are a datatype of four, so the branch has no input.
- Validator.ValidateExpression: lengths are counted in characters, not in UTF-8 bytes; the two differ only on texts with characters the validator refuses anyway.
- JSON and protobuf: message bodies are values, so the dead-lettering of bodies that cannot be decoded is not modelled.
- Database errors in the middle of a transaction: they roll back, so a transaction either happens or does not; `Consumers.HandleDelivery` takes such an error as a parameter, with or without the commit landing. That a transaction is atomic among concurrent ones is taken from the row locks.
- Consumers.RelayOnce: rows of an unknown kind, which the relay marks and drops, do not occur in the model.
- Consumers.RelayOnce: puts the task rows on the tasks flow only; that an audit row goes to the audit flow is a step of `AuditTrail`.
- Error texts, trace identifiers, worker and attempt columns, dashboard events and metrics.
- AuditIngest.RowsOnlyAppended: the trigger that would refuse an update or a delete is not modelled, because no statement of the code makes one.
- Circuit breaker, bulkhead, partition maintenance, statistics, configuration, reconnection, transports and user interface.
- The sharding of the rate limiter by key hash: buckets of different keys do not interact, so one table stands for all shards.
- The query cache and the collapsing of identical queries: a cached page may be stale, so walks are stated over the store's own answers.
- AuditIngest.Validate: identifiers are natural numbers and instants integers in units of what the table can store; rounding of finer timestamps is not modelled.
- Ingest counters and the wait inside `Ingest` as code: the call is a sequence of protocol steps in `AuditIngest`, with the timeout and the cancellation as one step.
- WorkerPool.Pool.Drain: one worker at a time; several workers draining together are interleaved steps of the protocol.
- Timers, tickers, TTL lengths and the demonstration latency: the steps they trigger may happen at any time.
