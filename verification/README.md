# web_calculator expression pipeline, modelled in Dafny

This project models the arithmetic core of the `web_calculator` distributed
calculator, a Go system.

The orchestrator:
- accepts an infix expression;
- validates its text;
- converts it to postfix with the shunting-yard algorithm;
- dispatches every operator of the postfix list as a task to the computing
  agents, one at a time;
- tracks each expression in a registry until it is done or invalid.

Tasks travel through one shared, bounded task queue. Results come back
through a per-expression result mailbox. Agents poll for tasks, compute one
binary operation and report the value. Remote calls are wrapped in a retry
combinator with exponential backoff.

The repository also keeps earlier generations of the same pieces, and they
are modelled too:
- the parser, task manager, registry and dispatcher of `internal/orchestrator`;
- the managers of the root `orchestrator` package;
- the earlier agent's `DoTask`;
- two direct infix evaluators that never build a postfix list:
  `internal/calculator/calculator.go` and `main.go`.

Modelling choices:
- Go channels are sequences with a capacity. A send into a full channel and
  a receive from an empty one would block, so they become preconditions or
  explicit outcomes.
- What becomes of a queued task is a parameter of the dispatchers, the
  worker: nobody receives it, an agent receives it and drops it, or an agent
  receives it and sends a result.
- Storage and RPC adapters are parameters, namely their replies.
- Numbers are exact `real`s. UUIDs are opaque `nat`s.
- A Go runtime panic, such as an index out of range or a call of a nil
  function, is a `Panic` value.

Modules:
- The modules follow the source files:
  - `Validator`, `Converter` (current pipeline helpers), with
    `ShuntingYard` proving what the conversion means;
  - `TaskManagers`, `ExpressionManagers`;
  - `Dispatcher`, `OrchestratorService`, `Processor`;
  - `Agent`, `Retry`;
  - `LegacyParser`, `LegacyTasks`, `LegacyExpressions`, `LegacyWorker`,
    `LegacyAgent`, `LegacyConfig`;
  - `RootOrchestrator`;
  - `Elements`, `Infix`, `Calculator`, `MainCalc`.
- `Postfix` is an independent reference evaluator. Every dispatcher is
  proved against it.
- The `*Examples` modules replay the repository's tests as lemmas.

## Model

| member | source | states |
|---|---|---|
| Validator.ValidateExpression | orchestrator/internal/service/helper/validator.go:10-50 | The verdict is always one of: pass, ErrInvalidExpression or ErrDivideByZero. |
| Validator.ValidateExpressionSpec | orchestrator/internal/service/helper/validator.go:10-50 | With spaces removed, text fails with ErrInvalidExpression exactly when it breaks a syntax rule. The rules: it is empty, holds a character outside the allowed class, has unbalanced parentheses, starts or ends with an operator, has two adjacent operators, or has two dots with only digits between them. Otherwise it fails with ErrDivideByZero exactly when it ends in a division by a literal zero, and passes in every other case. |
| Validator.SyntaxChecksIff | orchestrator/internal/service/helper/validator.go:18-41 | The regex checks, modelled as recursive scans, accept exactly the text described by the quantified syntax rules. |
| Validator.BracketsBalancedIff | orchestrator/internal/service/helper/validator.go:53-67 | isBracketsBalanced holds exactly when no prefix closes more parentheses than it opened and the whole text closes them all. |
| Validator.DivideByZeroOnlyAtEnd | orchestrator/internal/service/helper/validator.go:43-47 | ErrDivideByZero is reported only for text that passes every earlier check and whose space-free form ends in a zero digit or white space. |
| Validator.DivisionByZeroEndsInZero | orchestrator/internal/service/helper/validator.go:44-45 | A match of the anchored `/0` pattern always ends the text with `0` or white space. |
| Validator.ValidateIgnoresSpaces | orchestrator/internal/service/helper/validator.go:12 | Removing spaces first never changes the verdict. |
| Validator.BlankRejected | orchestrator/internal/service/helper/validator.go:12-15 | Empty or all-space text is ErrInvalidExpression. |
| Validator.ForeignCharacterRejected | orchestrator/internal/service/helper/validator.go:18-21 | Any character outside digits, `+ - * / ( ) .` and white space makes the text invalid, wherever it stands. |
| Validator.UnbalancedRejected | orchestrator/internal/service/helper/validator.go:24-26 | Unbalanced parentheses make the text invalid. |
| Validator.EdgeOperatorRejected | orchestrator/internal/service/helper/validator.go:29-32 | An operator first or last, after spaces are removed, makes the text invalid. |
| Validator.AdjacentOperatorsRejected | orchestrator/internal/service/helper/validator.go:35-37 | Two adjacent operator characters make the text invalid. |
| Validator.DoubleDotRejected | orchestrator/internal/service/helper/validator.go:39-41 | Two dots separated only by digits make the text invalid. |
| Validator.RejectsEmpty | orchestrator/internal/service/helper/validator_test.go:16-18 | "" is an invalid expression. |
| Validator.RejectsOnlySpace | orchestrator/internal/service/helper/validator_test.go:21-23 | " " is an invalid expression. |
| Validator.RejectsEqualsSign | orchestrator/internal/service/helper/validator_test.go:26-28 | "2+2=4" is an invalid expression. |
| Validator.RejectsUnclosedBracket | orchestrator/internal/service/helper/validator_test.go:31-33 | "(2+2" is an invalid expression. |
| Validator.RejectsTrailingOperator | orchestrator/internal/service/helper/validator_test.go:36-38 | "2+2+" is an invalid expression. |
| Validator.RejectsLeadingOperator | orchestrator/internal/service/helper/validator_test.go:41-43 | "+2+2" is an invalid expression. |
| Validator.RejectsDoubledOperator | orchestrator/internal/service/helper/validator_test.go:46-48 | "2++2" is an invalid expression. |
| Validator.RejectsDivisionByZero | orchestrator/internal/service/helper/validator_test.go:51-53 | "2/0" is ErrDivideByZero. |
| Validator.RejectsExcessDot | orchestrator/internal/service/helper/validator_test.go:56-58 | "2.0.1+3" is an invalid expression. |
| Validator.RejectsUnaryMinus | orchestrator/internal/service/helper/validator_test.go:61-63 | "2+-2" is an invalid expression. |
| Validator.AcceptsDivisionByFraction | orchestrator/internal/service/helper/validator_test.go:71-73 | "2/0.1" passes. |
| Validator.AcceptsBracketedProduct | orchestrator/internal/service/helper/validator_test.go:76-78 | "2+(2*2)" passes. |
| Validator.AcceptsSum | orchestrator/internal/service/helper/validator_test.go:81-83 | "2+2" passes. |
| Converter.ToRPN | orchestrator/internal/service/helper/converter.go:14-20 | Any validation failure, including division by zero, makes ToRPN return nothing but ErrInvalidExpression. Every failure is ErrInvalidExpression. |
| Converter.ToRPNSucceedsIff | orchestrator/internal/service/helper/converter.go:14-66 | ToRPN succeeds exactly on validated text in which every dot continues a number already being read. |
| Converter.ConvertSucceedsIff | orchestrator/internal/service/helper/converter.go:21-63 | On text made of scannable characters, the conversion loop succeeds exactly when the parentheses balance and no dot is stray. |
| Converter.ValidatedIsScannable | orchestrator/internal/service/helper/converter.go:18-49 | Validated text holds only characters the loop accepts, and its parentheses balance with spaces left in. |
| Converter.ConvertRejectsForeign | orchestrator/internal/service/helper/converter.go:47-48 | A character that is not a digit, dot, operator, parenthesis or white space fails the loop, wherever it stands. |
| Converter.ConvertTokens | orchestrator/internal/service/helper/converter.go:21-65 | Only number runs and single operators reach the output; no parenthesis does. |
| Converter.ToRPNTokens | orchestrator/internal/service/helper/converter.go:14-65 | ToRPN's output holds only number runs and single operators. |
| Converter.ConvertOperators | orchestrator/internal/service/helper/converter.go:30-63 | The output holds exactly the text's operators, as a multiset. |
| Converter.ToRPNOperators | orchestrator/internal/service/helper/converter.go:14-65 | ToRPN's output holds exactly the text's operators, as a multiset. |
| Converter.ConvertNumbers | orchestrator/internal/service/helper/converter.go:23-29 | The output's number tokens are the text's digit-and-dot runs, in text order. |
| Converter.ToRPNNumbers | orchestrator/internal/service/helper/converter.go:14-55 | ToRPN's number tokens are the text's digit-and-dot runs, in order. |
| ShuntingYard.PopAbove | orchestrator/internal/service/helper/converter.go:30-35 | An operator pops exactly the stack entries above the last one that binds less tightly, top first, and is then pushed. |
| ShuntingYard.ParenFound | orchestrator/internal/service/helper/converter.go:38-46 | A `)` pops exactly the operators above the nearest `(`, top first, and drops the `(`. |
| ShuntingYard.ScanExpr | orchestrator/internal/service/helper/converter.go:21-51 | The loop invariant: reading the text of a well-formed subtree, after a stack entry that binds less tightly than the subtree's top operator, leaves the subtree's right spine of operators on the stack. The rest of its postfix form is in the output, and its last literal is pending. |
| ShuntingYard.ConvertIsPostfix | orchestrator/internal/service/helper/converter.go:21-65 | For every well-formed expression tree, the loop turns its text into its postfix form. So tighter operators leave first, equal ones leave left to right, and parentheses group. A tree is well formed when its left operand binds at least as tightly as its operator and its right operand strictly more tightly. |
| ShuntingYard.ConvertSpacedIsPostfix | orchestrator/internal/service/helper/converter.go:26-29 | A space in front of every token and one at the end change nothing: the postfix form is the same. |
| ShuntingYard.CleanTree | orchestrator/internal/service/helper/validator.go:18-41 | The text of a well-formed tree meets every character, operator-placement and dot rule of the validator. |
| ShuntingYard.BalanceTree | orchestrator/internal/service/helper/validator.go:53-67 | The text of a well-formed tree never closes a parenthesis it did not open and closes all it opens. |
| ShuntingYard.ValidatesTree | orchestrator/internal/service/helper/validator.go:10-50 | On the text of a well-formed tree, the validator fails only when the text ends in a division by a literal zero, and then with ErrDivideByZero. |
| ShuntingYard.StripSpacedText | orchestrator/internal/service/helper/validator.go:12 | Removing the spaces from the spaced text of a tree gives back its plain text. |
| ShuntingYard.ToRPNIsPostfix | orchestrator/internal/service/helper/converter.go:14-65 | ToRPN on the text of a well-formed tree is its postfix form, unless the text ends in a division by a literal zero, which is ErrInvalidExpression. |
| ShuntingYard.ToRPNNotEndingInZero | orchestrator/internal/service/helper/converter.go:14-65 | Text of a well-formed tree that does not end in `0` passes validation, and ToRPN returns its postfix form. |
| ShuntingYard.ToRPNSpacedNotEndingInZero | orchestrator/internal/service/helper/converter.go:14-65 | The same for the spaced text: validation removes the spaces and the loop skips them. |
| ShuntingYard.EvalTree | orchestrator/internal/service/helper/converter.go:14-65 | Evaluating a tree's postfix form pushes the tree's value, computed with the precedences, or stops where an operation has no value. |
| ShuntingYard.PostfixEvaluatesTree | orchestrator/internal/service/helper/converter.go:14-65 | The reference evaluator on a tree's postfix form yields exactly the tree's value, or Undefined where a division by zero occurs. |
| ConverterExamples.PrecedenceAndParentheses | orchestrator/internal/service/helper/converter_test.go:16-21 | ToRPN("3+4*2/(1-5)") is `3 4 2 * 1 5 - / +`. |
| ConverterExamples.MultipleParentheses | orchestrator/internal/service/helper/converter_test.go:22-27 | ToRPN("5+((3*4)/2)-1") is `5 3 4 * 2 / + 1 -`. |
| ConverterExamples.LeftToRight | orchestrator/internal/service/helper/converter_test.go:28-33 | ToRPN("1+2+3+4+5") is `1 2 + 3 + 4 + 5 +`. |
| ConverterExamples.NestedParentheses | orchestrator/internal/service/helper/converter_test.go:34-39 | ToRPN("((2+3)*(4+5))") is `2 3 + 4 5 + *`. |
| ConverterExamples.DecimalNumbers | orchestrator/internal/service/helper/converter_test.go:40-45 | ToRPN("0.5+1.25*2") is `0.5 1.25 2 * +`. |
| ConverterExamples.ParenthesisedDifference | orchestrator/internal/service/helper/converter_test.go:46-51 | ToRPN("4+(3-2)*2") is `4 3 2 - 2 * +`. |
| ConverterExamples.ComplexWithoutSpaces | orchestrator/internal/service/helper/converter_test.go:52-57 | ToRPN("6/(2*(1+2))") is `6 2 1 2 + * /`. |
| ConverterExamples.Whitespace | orchestrator/internal/service/helper/converter_test.go:58-63 | ToRPN(" 7 + 8 * ( 9 - 3 ) ") is `7 8 9 3 - * +`. |
| ConverterExamples.DivisionBeforeAddition | orchestrator/internal/service/helper/converter_test.go:64-69 | ToRPN("10/2+3") is `10 2 / 3 +`. |
| ConverterExamples.MultipleNestedOperations | orchestrator/internal/service/helper/converter_test.go:70-75 | ToRPN("((1+2)*3)-(4/(2+2))") is `1 2 + 3 * 4 2 2 + / -`. |
| ConverterExamples.RejectsUnaryMinus | orchestrator/internal/service/helper/converter_test.go:76-81 | ToRPN("2+-2") is ErrInvalidExpression. |
| ConverterExamples.RejectsLeadingDot | orchestrator/internal/service/helper/converter.go:23-49 | ".5" passes validation, yet ToRPN rejects it: the dot arrives with no number pending. |
| ConverterExamples.ValidatesExtraBrackets | orchestrator/internal/service/helper/validator_test.go:65-69 | "((2+3)*4)" passes validation. |
| TaskManagers.NewTaskManager | orchestrator/internal/service/utils/task_manager.go:18-23 | A new manager has an empty mailbox, counter 0 and the given durations. |
| TaskManagers.Duration | orchestrator/internal/service/utils/task_manager.go:31 | The map index gives the stored duration, or zero for an operator the map lacks. |
| TaskManagers.CreateTask | orchestrator/internal/service/utils/task_manager.go:26-41 | The counter rises by one and the task carries the new value as its id. It also carries the given arguments, operator, expression id and that operator's duration. The mailbox is untouched. |
| TaskManagers.AddResult | orchestrator/internal/service/utils/task_manager.go:44-46 | Sending into the empty mailbox leaves exactly that result in it, and the counter unchanged. |
| TaskManagers.GetResult | orchestrator/internal/service/utils/task_manager.go:49-51 | Receiving yields the waiting result and empties the mailbox. |
| TaskManagers.ResultRoundTrip | orchestrator/internal/service/utils/task_manager.go:44-51 | A result sent into an empty mailbox is received unchanged, leaving the manager as it was. |
| TaskManagers.TaskIdsConsecutive | orchestrator/internal/service/utils/task_manager.go:29-30 | k successive CreateTask calls issue ids counter+1 .. counter+k, without gaps. |
| TaskManagers.TaskIdsDistinct | orchestrator/internal/service/utils/task_manager.go:29-30 | No two tasks of one manager share an id, and none has id 0. |
| TaskManagers.TaskIdIgnoresExpression | orchestrator/internal/service/utils/task_manager.go:26-41 | The issued id depends on the manager alone, never on the expression id passed in. |
| ExpressionManagers.NewExpressionManager | orchestrator/internal/service/utils/expression_manager.go:21-28 | A new registry is empty, with an empty task queue and the given durations. |
| ExpressionManagers.CreateExpression | orchestrator/internal/service/utils/expression_manager.go:31-38 | Registering adds the expression's id to both the expression and task-manager maps, and leaves the queue alone. |
| ExpressionManagers.GetTaskManager | orchestrator/internal/service/utils/expression_manager.go:41-47 | Succeeds exactly for a registered id, returning its manager. Otherwise fails with ErrTaskManagerNotFound. |
| ExpressionManagers.GetExpression | orchestrator/internal/service/utils/expression_manager.go:59-62 | Finds exactly the registered ids, returning the stored expression. |
| ExpressionManagers.GetExpressions | orchestrator/internal/service/utils/expression_manager.go:50-56 | Returns one entry per registered id, each a registered expression and all of them present. |
| ExpressionManagers.AddTask | orchestrator/internal/service/utils/expression_manager.go:65-67 | Appends the task to the shared queue and changes nothing else. |
| ExpressionManagers.TakeTask | orchestrator/internal/service/utils/expression_manager.go:70-72 | A receive that does not wait: it yields the oldest task exactly when the queue is non-empty, and otherwise leaves the registry unchanged. |
| ExpressionManagers.ExpressionDone | orchestrator/internal/service/utils/expression_manager.go:75-84 | A registered expression becomes done with the value. Every other expression, the queue and the managers are unchanged. An unknown id changes nothing. |
| ExpressionManagers.ExpressionError | orchestrator/internal/service/utils/expression_manager.go:87-95 | A registered expression becomes invalid and keeps whatever result it had. Nothing else changes. |
| ExpressionManagers.CreateThenGet | orchestrator/internal/service/utils/expression_manager.go:31-47 | After registration the expression and a fresh task manager are found under its id. Every other id is unaffected. |
| ExpressionManagers.ReRegisterReplaces | orchestrator/internal/service/utils/expression_manager.go:35-36 | Registering an id twice is the same as registering it once with the later expression. |
| ExpressionManagers.LaterTransitionWins | orchestrator/internal/service/utils/expression_manager.go:75-95 | Neither transition checks the status, so the later one wins. Error after done keeps the value. |
| ExpressionManagers.TransitionsIgnoreUnknown | orchestrator/internal/service/utils/expression_manager.go:76-94 | On an unregistered id both transitions leave the registry unchanged. |
| ExpressionManagers.OperationsPreserveValid | orchestrator/internal/service/utils/expression_manager.go:21-95 | Every operation keeps the queue within 100 and every mailbox within one. |
| ExpressionManagers.QueueIsFifo | orchestrator/internal/service/utils/expression_manager.go:65-72 | Tasks added to the queue are received after the waiting ones, in the order added. |
| Postfix.Arithmetic | agent/internal/service/service.go:114-134 | The exact value of `+ - * /`. Division has a value exactly when the divisor is non-zero, and any other operator has none. |
| Postfix.EvalPostfix | orchestrator/internal/service/service.go:268-313 | Process's loop with each operation's value taken from `apply` instead of an agent: a success is the one value the loop leaves on the stack from empty, and the result is NotSingle exactly when the loop finishes with some other number of values (the `len(stack) != 1` check). |
| Postfix.EvalFollowsHeight | orchestrator/internal/service/service.go:274-287 | Evaluation fails for lack of operands exactly where the list's shape alone runs out of operands. Otherwise it leaves as many values as the shape predicts. |
| Postfix.EvalAppend | orchestrator/internal/service/service.go:269-308 | Evaluating a concatenation evaluates the first part, then the second part on the stack the first part left. |
| Numbers.ParseFloat | orchestrator/internal/service/service.go:270 | A token parses exactly when it is an optionally signed decimal literal. |
| Numbers.OperatorIsNotNumber | orchestrator/internal/service/service.go:270-274 | A lone operator symbol never parses, so the dispatchers take it as an operator. |
| Dispatcher.Await | orchestrator/internal/service/utils/task_manager.go:49-51 | A receive on the mailbox yields the waiting result if there is one, and the answer to the task then waits in the mailbox in its place. Otherwise it yields the answer an agent sends for the task, and is None when no agent sends one. |
| Dispatcher.IssueTask | orchestrator/internal/service/service.go:288-307 | The popped values become a task with the next id: arg1 is the lower value and arg2 the top. The task is sent and its answer awaited. The run halts on a full queue exactly when nobody ever receives the task, and without an answer exactly when none arrives. A received task leaves the queue together with every task ahead of it (GetTask receives from the front, orchestrator/internal/service/service.go:234). A task nobody receives stays at the end. |
| Dispatcher.DispatchIds | orchestrator/internal/service/service.go:292 | The run's tasks carry ids counter+1, counter+2, ... in creation order. |
| Dispatcher.DispatchQueue | orchestrator/internal/service/service.go:300 | The queue a run leaves is what the agents leave when the run's tasks are sent in creation order. A task met by a full queue that nobody drains is created but never sent. |
| Dispatcher.DrainedAllKeepsUntaken | orchestrator/internal/service/service.go:231-265 | Only tasks that were queued before, or sent tasks nobody receives, stay on the queue. If nobody receives any, all sent tasks stay in order. Once the last one is received, the queue is empty. |
| Dispatcher.DispatchShape | orchestrator/internal/service/service.go:269-313 | Whatever the worker answers, the run stops for lack of operands exactly where the list's shape runs out. The number of tasks is the number of operators consumed. |
| DispatchProofs.FreshManagerNumbersFromOne | orchestrator/internal/service/service.go:292 | With a fresh manager the run issues ids 1..k, k being the number of tasks created. |
| DispatchProofs.DispatchedTasksNeverHitInternalError | orchestrator/internal/service/service.go:260-264 | Dispatch never puts an id-0 task on the queue, so GetTask's internal-error branch is unreachable for dispatched tasks. |
| DispatchProofs.QueuedWereThereOrCreated | orchestrator/internal/service/service.go:300 | Every task on the queue after a run was there before or was created by the run. |
| DispatchProofs.Agents | agent/internal/service/service.go:25-111 | Agents that keep polling receive every task. They answer exactly the non-zero-id tasks whose arithmetic has a value, and drop the rest. |
| DispatchProofs.HonestRunDrainsQueue | orchestrator/internal/service/service.go:231-308 | With agents polling, a run never halts on a full queue, and once it has sent a task nothing is left on the queue. |
| DispatchProofs.HonestDispatchEvaluates | orchestrator/internal/service/service.go:268-308 | When agents answer every task with DoTask's arithmetic, the run ends with the reference evaluator's stack, however long the expression and however full the queue. It stops without an answer exactly at a division by zero. |
| DispatchProofs.HonestProcessAgrees | orchestrator/internal/service/service.go:267-343 | Under honest agents, Process asks storage for "done" with the reference value when the list evaluates to one value, and for "invalid expression" on underflow or leftovers. |
| DispatchProofs.HonestProcessorAgrees | orchestrator/internal/service/utils/processor.go:12-52 | Under honest agents, the registry-only Process leaves the expression done with the reference value, or invalid, likewise. |
| DispatchExamples.ProcessorAddsThreeAndFour | orchestrator/internal/service/utils/processor_test.go:76-91 | "3 4 +" issues the one task (3, 4, "+") with id 1 and ends done with 7. |
| DispatchExamples.ProcessorRejectsLoneOperand | orchestrator/internal/service/utils/processor_test.go:92-96 | "3 *" issues no task and ends invalid. |
| Processor.Process | orchestrator/internal/service/utils/processor.go:12-52 | After the run, the expression is done with the single value left, or invalid on underflow or leftovers. It is untouched while the run waits, and no other expression changes. |
| OrchestratorService.Calculate | orchestrator/internal/service/service.go:34-90 | The outcomes, in order: a malformed user id is an error; a ToRPN failure is ErrInvalidExpression; a storage failure is an error. Success comes exactly when all three pass, and then a pending expression is registered and processing is spawned. It never reports an internal error. |
| OrchestratorService.CalculateRegistersPending | orchestrator/internal/service/service.go:55-87 | An accepted expression is found pending with no result, next to a task manager. |
| OrchestratorService.ExpressionById | orchestrator/internal/service/service.go:139-182 | A malformed id is an error. An unregistered id is ErrExpressionNotFound. A registered id gives the stored expression. |
| OrchestratorService.ResultTask | orchestrator/internal/service/service.go:184-228 | A malformed id is an error and an unknown one is ErrTaskNotFound. A known one delivers the value into that expression's mailbox. |
| OrchestratorService.GetTask | orchestrator/internal/service/service.go:230-265 | An empty queue is ErrTaskNotFound. Otherwise the oldest task is removed and returned, or is ErrInternalServerError if its id is 0. |
| OrchestratorService.Verdict | orchestrator/internal/service/service.go:274-333 | No storage update while a run waits. Otherwise: "done" with the value exactly when one value is left; otherwise "invalid expression" with no result. |
| OrchestratorService.Process | orchestrator/internal/service/service.go:267-343 | The registry follows the storage update: it changes only when storage accepted the update, and only for this expression. |
| Agent.DoTask | agent/internal/service/service.go:114-134 | Division by zero is ErrDivideByZero, an unknown operator is ErrInvalidExpression, and no other error occurs. |
| Agent.DoTaskIsArithmetic | agent/internal/service/service.go:114-134 | DoTask succeeds exactly where exact arithmetic has a value, and returns that value. |
| Agent.GetTask | agent/internal/service/service.go:137-146 | The adapter's task passes through. Its error comes with a zero task. |
| Agent.ResultTask | agent/internal/service/service.go:149-158 | The adapter's verdict passes through unchanged. |
| Agent.WorkStep | agent/internal/service/service.go:25-111 | One loop pass: a fetch error or a task with id 0 polls again. A computable task is reported with its expression id, task id and value. A task DoTask fails on is dropped. |
| Agent.Answer | agent/internal/service/service.go:25-111 | An agent answers exactly the non-zero-id tasks whose arithmetic has a value, with that value. |
| Agent.DivisionByZeroIsDropped | agent/internal/service/service.go:62-71 | A division by zero reaches the orchestrator as silence, never as a value. |
| Retry.Retry | common-lib/callers/retry.go:15-44 | Between 1 and maxRetries+1 invocations. It stops at the first success, fails only after all attempts, and returns the last attempt's error. It sleeps baseDelay*2^n before attempt n >= 1. |
| Retry.FirstSuccess | common-lib/callers/retry.go:15-44 | Reference: the index of the first successful invocation within the limit, every earlier one failing. |
| Retry.RetryAgreesWithFirstSuccess | common-lib/callers/retry.go:15-44 | Retry stops exactly at the first success. With none, it reports failure after maxRetries+1 attempts. |
| Retry.WaitsUpToAttempt | common-lib/callers/retry.go:15-44 | The waits up to attempt n total baseDelay * (2^(n+1) - 2). |
| Retry.TotalWaitClosedForm | common-lib/callers/retry.go:15-44 | The closed form of the summed exponential waits. |
| Models.StatusTextInjective | orchestrator/internal/service/service.go:57 | The three status strings "pending", "done" and "invalid expression" are distinct, so a status can be recovered from its text. |
| LegacyParser.ValidateExpression | internal/orchestrator/parser.go:11-47 | Every failure is the same empty-message error. |
| LegacyParser.ValidateExpressionSpec | internal/orchestrator/parser.go:11-47 | Accepts exactly the space-free text that is non-empty, allowed, balanced, not operator-edged, free of adjacent operators, and not ending in a division by a literal zero. |
| LegacyParser.AgreesWithCurrentValidator | internal/orchestrator/parser.go:11-47 | Accepts everything the current validator accepts. Rejects division by zero. Rejects only text the current validator also rejects. |
| LegacyParser.ForeignCharacterRejected | internal/orchestrator/parser.go:19-22 | A character outside the allowed class is rejected. |
| LegacyParser.RPN | internal/orchestrator/parser.go:71-123 | Rejected text yields only the error. Accepted text yields the shared conversion loop's result. |
| LegacyParser.RPNSucceedsIff | internal/orchestrator/parser.go:71-123 | RPN succeeds exactly on validated text with no stray dot. |
| LegacyParser.RPNOutput | internal/orchestrator/parser.go:76-122 | RPN emits only number runs and operators: exactly the text's operators and its runs in order. |
| LegacyParser.AgreesWithToRPN | internal/orchestrator/parser.go:71-123 | RPN equals ToRPN wherever ToRPN succeeds. It differs only on text with two dots between digits. |
| LegacyParser.AcceptsExcessDot | internal/orchestrator/parser.go:11-47 | "2.0.1+3" passes the legacy check but not the current one, and RPN keeps "2.0.1" as one token. |
| LegacyParser.ConvertsWorkedExample | internal/orchestrator/parser_test.go:63-72 | RPN("3+4*2/(1-5)") is `3 4 2 * 1 5 - / +`. |
| LegacyParser.RejectsCaret | internal/orchestrator/parser_test.go:74-79 | "3+4*2/(1-5)^2^3)" is rejected. |
| LegacyParser.RejectsEmpty | internal/orchestrator/parser_test.go:7-12 | "" is rejected. |
| LegacyParser.RejectsEqualsSign | internal/orchestrator/parser_test.go:14-19 | "2+2=4" is rejected. |
| LegacyParser.RejectsUnclosedBracket | internal/orchestrator/parser_test.go:21-26 | "(2+2" is rejected. |
| LegacyParser.RejectsLeadingOperator | internal/orchestrator/parser_test.go:28-33 | "+2+2" is rejected. |
| LegacyParser.RejectsTrailingOperator | internal/orchestrator/parser_test.go:35-40 | "2+2+" is rejected. |
| LegacyParser.RejectsDoubledOperator | internal/orchestrator/parser_test.go:42-47 | "2++2" is rejected. |
| LegacyParser.RejectsDivisionByZero | internal/orchestrator/parser_test.go:49-54 | "2/0" is rejected. |
| LegacyParser.AcceptsSum | internal/orchestrator/parser_test.go:56-61 | "2+2" passes. |
| LegacyConfig.AsDurations | internal/config/config.go:74-87 | The configuration as an operator-keyed map over exactly `+ - * /`. |
| LegacyConfig.OperationsTimeIsDuration | internal/config/config.go:74-87 | GetOperationsTime agrees with a map lookup, and is 0 for any other operator. |
| LegacyAgent.Compute | agent/worker.go:15-35 | The exact value where arithmetic has one, and 0 for division by zero or an unknown operator. |
| LegacyAgent.DoTaskAgreesWithCurrent | agent/worker.go:15-35 | Equals the current DoTask's value where that succeeds, and is 0 where it fails. |
| LegacyTasks.NewTaskManager | internal/orchestrator/task_processor.go:29-35 | Empty record and channels, counter 0. |
| LegacyTasks.CreateTask | internal/orchestrator/task_processor.go:37-52 | Next id from the counter, configured operation time, and the task recorded under its id. The channels are untouched. |
| LegacyTasks.AddTask | internal/orchestrator/task_processor.go:54-57 | Appends to the task channel only. |
| LegacyTasks.TakeTask | internal/orchestrator/task_processor.go:67-69 | Receives the oldest task from the task channel only. |
| LegacyTasks.GetTask | internal/orchestrator/task_processor.go:59-65 | Finds exactly the recorded ids. |
| LegacyTasks.AddResult | internal/orchestrator/task_processor.go:71-73 | Appends to the result channel only. |
| LegacyTasks.GetResult | internal/orchestrator/task_processor.go:75-77 | Receives the oldest result only. |
| LegacyTasks.ResultRoundTrip | internal/orchestrator/task_processor.go:71-77 | A result sent into an empty channel comes back unchanged, leaving the manager as it was. |
| LegacyTasks.RemoveTask | internal/orchestrator/task_processor.go:79-85 | Deletes only that id's record and always reports false. |
| LegacyTasks.CreatedTaskIsRecorded | internal/orchestrator/task_processor.go:37-52 | A created task is found under its id, which was free before. No other record changes. |
| LegacyTasks.NeverCreatedIsAbsent | internal/orchestrator/task_processor.go:59-65 | An id the counter never issued is never found. |
| LegacyTasks.RemoveThenGet | internal/orchestrator/task_processor.go:79-85 | After removal the id is not found, other ids are unaffected, and the call reports false. |
| LegacyTasks.OperationsPreserveValid | internal/orchestrator/task_processor.go:29-85 | Every operation keeps both channels within 10 and the record keyed by issued ids. |
| LegacyTasks.ResultsAreFifo | internal/orchestrator/task_processor.go:71-77 | Results come back in the order added, after those already waiting. |
| LegacyExpressions.CreateExpression | internal/orchestrator/expression_processor.go:27-39 | The counter rises and a pending expression with result 0 is registered under the new, previously free id. |
| LegacyExpressions.GetExpression | internal/orchestrator/expression_processor.go:51-54 | Finds exactly the registered ids. |
| LegacyExpressions.GetExpressions | internal/orchestrator/expression_processor.go:42-48 | One entry per registered id. |
| LegacyExpressions.ExpressionDone | internal/orchestrator/expression_processor.go:57-66 | Only that expression becomes done with the value. Unknown ids are ignored. |
| LegacyExpressions.ExpressionError | internal/orchestrator/expression_processor.go:69-78 | Only that expression becomes invalid, with its result reset to 0. |
| LegacyExpressions.CreateCountsFromOne | internal/orchestrator/expression_processor.go:27-39 | The n-th registration on a new registry gets id n. |
| LegacyExpressions.LaterTransitionWins | internal/orchestrator/expression_processor.go:57-78 | The later transition wins. Error after done resets the result to 0. |
| LegacyExpressions.TransitionsIgnoreUnknown | internal/orchestrator/expression_processor.go:57-78 | Unknown ids change nothing. |
| LegacyWorker.Await | internal/orchestrator/worker.go:27-28 | The worker's answer, if any, queues behind the results already waiting, and the receive takes the oldest of them. It is None exactly when nothing is waiting and the worker stays silent. |
| LegacyWorker.IssueTask | internal/orchestrator/worker.go:22-29 | The popped values become a recorded task with the next id on the task channel. Its value is the oldest result waiting, with the worker's answer queued behind. A full task channel halts the run, and so does a receive with nothing waiting and no answer. |
| LegacyWorker.Process | internal/orchestrator/worker.go:10-38 | Done with the single value left, invalid on underflow or leftovers, untouched while waiting. |
| LegacyWorker.DispatchRecords | internal/orchestrator/worker.go:13-30 | Ids follow the counter without gaps, and every created task stays recorded. |
| LegacyWorker.AnsweringKeepsBacklog | internal/orchestrator/worker.go:26-29 | Under a worker that answers every task, a run never waits forever and leaves as many results waiting as it found. |
| LegacyWorker.HonestDispatchEvaluates | internal/orchestrator/worker.go:10-38 | Under the legacy agent the run ends with the reference evaluator's stack under legacy semantics. |
| LegacyWorker.HonestProcessAgrees | internal/orchestrator/worker.go:10-38 | Under the legacy agent Process marks the expression as the reference evaluator decides. |
| LegacyWorkerExamples.WorkedExampleValue | internal/orchestrator/worker_test.go:33-45 | `3 4 2 * 1 5 - / +` evaluates to 1. |
| LegacyWorkerExamples.ProcessWorkedExample | internal/orchestrator/worker_test.go:21-45 | On a new registry and task manager the worked example ends done with 1. |
| LegacyWorkerExamples.ProcessEmpty | internal/orchestrator/worker_test.go:48-74 | An empty list ends invalid with result 0. |
| LegacyWorkerExamples.StaleResultShiftsAnswers | internal/orchestrator/worker.go:26-29 | A result left over from another expression is taken by the next run's first task. `+ +` over 1 2 3 then ends with the first task's answer, and the second task's answer is left waiting. |
| RootOrchestrator.NewTaskManager | orchestrator/task_processor.go:30-34 | An empty mailbox and counter 0. |
| RootOrchestrator.CreateTask | orchestrator/task_processor.go:37-52 | Next id from the counter, with the operation time read from the configuration. |
| RootOrchestrator.CreateTaskAgreesWithCurrent | orchestrator/task_processor.go:37-52 | On a manager built from the same configuration, it equals the current CreateTask. |
| RootOrchestrator.ResultRoundTrip | orchestrator/task_processor.go:55-62 | A result sent into the empty channel comes back unchanged. |
| RootOrchestrator.NewExpressionManager | orchestrator/expression_processor.go:22-28 | Empty maps, empty queue, counter 0. |
| RootOrchestrator.CreateExpression | orchestrator/expression_processor.go:31-43 | The counter rises, and a pending expression with no result and a new task manager are registered under the new, previously free id. |
| RootOrchestrator.GetTaskManager | orchestrator/expression_processor.go:46-52 | Finds exactly the registered ids. |
| RootOrchestrator.GetExpression | orchestrator/expression_processor.go:64-67 | Finds exactly the registered ids. |
| RootOrchestrator.GetExpressions | orchestrator/expression_processor.go:55-61 | One entry per registered id. |
| RootOrchestrator.AddTask | orchestrator/expression_processor.go:70-72 | Appends to the channel only. |
| RootOrchestrator.TakeTask | orchestrator/expression_processor.go:75-77 | Receives the oldest task only. |
| RootOrchestrator.ExpressionDone | orchestrator/expression_processor.go:80-89 | Only that expression becomes done with the value. |
| RootOrchestrator.ExpressionError | orchestrator/expression_processor.go:92-100 | Only that expression's status becomes invalid. |
| RootOrchestrator.CreateThenGet | orchestrator/expression_processor.go:31-67 | A registration is found under its new id; the id was free before. |
| RootOrchestrator.LaterTransitionWins | orchestrator/expression_processor.go:80-100 | The later transition wins. Error after done keeps the value. |
| RootOrchestrator.TransitionsIgnoreUnknown | orchestrator/expression_processor.go:80-100 | Unknown ids change nothing. |
| RootOrchestrator.OperationsPreserveValid | orchestrator/expression_processor.go:22-100 | Every operation keeps the channel within 100 and the maps keyed by issued ids. |
| RootOrchestrator.TasksLeaveInOrder | orchestrator/expression_processor.go:70-77 | The channel is first in, first out: any sequence of tasks sent into it is received after the tasks already waiting, in the order sent. |
| Elements.StrictAcceptsIff | internal/calculator/calculator.go:10-37 | convElem accepts exactly text in which every character is a digit, a symbol, or a dot continuing a number. |
| Elements.ForeignRejected | internal/calculator/calculator.go:24-30 | A character that is neither a digit, a dot nor a symbol is rejected wherever it stands. |
| Elements.StrictConcat | internal/calculator/calculator.go:10-37 | The accepted tokens, written back to back, are the text itself. |
| Elements.ElementsAreWellFormed | internal/calculator/calculator.go:10-37 | Every token is a single symbol or a number run. |
| Elements.LenientAgreesWithStrict | main.go:16-41 | Where calculator.go's convElem accepts, main.go's gives the same tokens. |
| Elements.DroppedCharacterSplits | main.go:30-34 | main.go's convElem treats a foreign character as a separator. |
| Infix.Apply | internal/calculator/calculator.go:59-77 | Fewer than two numbers is an error, and a zero divisor under "/" is division by zero. Success pops two numbers and one action and pushes the action's value. |
| Infix.FoldLeft | internal/calculator/calculator.go:59-77 | Reference for a single-level chain: fail only on a zero divisor. |
| Infix.LevelChainFoldsLeft | internal/calculator/calculator.go:85-132 | A number followed by operators of one precedence level evaluates left to right. |
| Infix.StepAppliesAll | internal/calculator/calculator.go:91-105 | An operator at most as tight as the top action applies every pending action before it is pushed. |
| Infix.StepPushesOperator | internal/calculator/calculator.go:91-105 | An operator tighter than the top action, or with no operator on top, is pushed. |
| Calculator.ErrorOf | internal/calculator/errors.go:6-7 | Only a zero divisor is ErrDivisionByZero, and a panic stays a panic. |
| Calculator.ConvElem | internal/calculator/calculator.go:10-37 | Fails only with ErrInvalidExpression, and succeeds exactly when every character is admissible. Success gives well-formed tokens that rebuild the text. |
| Calculator.Calculate | internal/calculator/calculator.go:46-50 | Text convElem rejects is ErrInvalidExpression. |
| Calculator.ForeignCharacterRejected | internal/calculator/calculator.go:24-30 | A foreign character makes Calculate fail with ErrInvalidExpression. |
| Calculator.RejectsLetter | internal/api/api_test.go:59 | "1u*2" is ErrInvalidExpression. |
| Calculator.LevelChainFoldsLeft | internal/calculator/calculator.go:46-138 | Single-level chains evaluate left to right, and a zero divisor is ErrDivisionByZero. |
| CalculatorExamples.AddsOnePlusOne | internal/api/api_test.go:17 | "1+1" is 2. |
| CalculatorExamples.HalvesOne | internal/api/api_test.go:20 | "1/2" is 0.5. |
| CalculatorExamples.MultipliesBeforeAdding | internal/api/api_test.go:19 | "2+2*2" is 6. |
| CalculatorExamples.ParenthesesFirst | internal/api/api_test.go:18 | "(2+2)*2" is 8. |
| CalculatorExamples.RejectsTrailingOperator | internal/api/api_test.go:55 | "1+1*" is ErrInvalidExpression. |
| CalculatorExamples.RejectsDoubledOperator | internal/api/api_test.go:56 | "2+2**2" is ErrInvalidExpression. |
| CalculatorExamples.RejectsMismatchedParentheses | internal/api/api_test.go:57 | "((2+2-*(2" is ErrInvalidExpression. |
| CalculatorExamples.RejectsEmpty | internal/api/api_test.go:58 | "" is ErrInvalidExpression. |
| CalculatorExamples.RejectsZeroDivisor | internal/calculator/calculator.go:59-77 | "1/0" is ErrDivisionByZero. |
| CalculatorExamples.AppliesEveryPendingAction | internal/calculator/calculator.go:91-105 | "1+2*3*4" is 28: the second "*" applies both pending actions, so the "+" is applied too early. |
| CalculatorExamples.DepartsFromPostfixPipeline | internal/calculator/calculator.go:91-105 | "3+4*2/(1-5)" is -2.75, where the postfix pipeline gives 1. |
| CalculatorExamples.UnopenedParenthesisPanics | internal/calculator/calculator.go:108-117 | "1+2)" runs out of actions inside the ")" loop and panics. |
| MainCalc.ErrorOf | main.go:50-146 | Each fault maps to its own message: zero divisor, unknown symbol with the token, bracket mismatch, panic. Everything else is a malformed expression. |
| MainCalc.ConvElem | main.go:16-41 | Never fails. Tokens are well formed and equal calculator.go's wherever that copy accepts. |
| MainCalc.AgreesWithCalculator | main.go:50-146 | Where calculator.go's convElem accepts, Calc and Calculate agree on success, value, zero divisor and panic. |
| MainCalc.DroppedCharacterSeparates | main.go:30-34 | A dropped character evaluates the tokens on both sides of it, one after the other. |
| MainCalcExamples.DropsLetter | main.go:30-34 | "1u*2" is 2: the letter is dropped. |
| MainCalcExamples.ReportsUnknownToken | main.go:126-128 | "1.2.3" is not a number, so it is reported as an unknown symbol. |
| MainCalcExamples.ReportsUnclosedBracket | main.go:132-136 | "(1" is a bracket mismatch. |
| MainCalcExamples.ReportsTrailingOperator | main.go:142-144 | "1+1*" is malformed. |
| MainCalcExamples.ReportsZeroDivisor | main.go:75-77 | "2/0" is a division by zero. |
| MainCalcExamples.ReportsEmpty | main.go:142-144 | "" is malformed. |

## Left out

- Goroutines, mutexes and real blocking. Each operation is one atomic step, and a channel send or receive that would wait forever is an explicit outcome or a precondition.
- The agents that drain the queue are not modelled as concurrent processes. What they do with each task is the worker parameter of the dispatchers.
- Dispatcher.IssueTask: a send into a full queue goes through when the task itself is received at some point. In Go it goes through as soon as any agent receives the task at the front, even if this task is never received later.
- Aliasing between the task manager held by Calculate's goroutine and the one in the registry: the model passes the manager explicitly.
- UUID generation and parsing: ids are opaque naturals, and a malformed id arrives as None.
- Floating point: values are exact reals, so rounding, infinities and NaN are not modelled. ParseFloat is modelled on optionally signed decimal literals only, without exponents, hexadecimal forms, "Inf" or "NaN".
- unicode.IsDigit is modelled on ASCII digits only. Other Unicode decimal digits are not modelled.
- Retry: the int64 overflow of `baseDelay * 2^n` for large attempt counts is not modelled; waits are unbounded naturals. Sleeping is recorded as the list of waits.
- Sleeps, logging, gRPC and HTTP transport, the storage database and configuration loading from the environment.
- RootOrchestrator.CreateTask: the root package reads a package-level `conf` that is not defined in the files modelled; the configuration is modelled as a field of the registry and a parameter.
- LegacyWorkerExamples: internal/orchestrator/worker_test.go reads `*expr.Result`, but the legacy registry stores a plain float64. The examples state the value the code computes.
- Infix: Go runtime panics are modelled as the Panic fault rather than a crash.
- RootOrchestrator.CreateExpression and LegacyExpressions.CreateExpression: the error result is always nil in Go and is left out.
- Infix.LevelChainFoldsLeft: general precedence-correctness of the direct evaluators is not claimed, because it does not hold (see AppliesEveryPendingAction). Only single-level chains and the tested examples are proved.
- OrchestratorService.Expressions (the per-user listing) is a storage query with no logic of its own and is left out.
