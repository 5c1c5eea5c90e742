/** The dispatch loop shared by Process in orchestrator/internal/service/service.go
    (lines 268-308) and in orchestrator/internal/service/utils/processor.go
    (lines 15-45): numbers are pushed, and each operator pops two values,
    becomes one task on the shared queue, and is replaced by the value the
    expression's mailbox delivers.

    The agents are a parameter, the worker: it says what becomes of each task
    once it is queued. An agent receives tasks from the front of the queue
    (service.go lines 231-265), so when a task is received every task queued
    before it has been received too. A receive that would wait forever, and a
    send into a queue that nobody ever drains, end the run instead of blocking. */
module Dispatcher {
  import opened Wrappers
  import opened Models
  import opened Numbers
  import opened TaskManagers
  import opened ExpressionManagers
  import Postfix

  /** What becomes of a queued task. */
  datatype Reply =
    | Untaken                   // no agent ever receives it
    | Dropped                   // an agent receives it and sends nothing back
    | Sent(result: TaskResult)  // an agent receives it and sends this result

  type Worker = Task -> Reply

  /** How a run stops. */
  datatype Halt =
    | Finished(stack: seq<real>)   // every token consumed; the value stack left
    | Underflow                    // an operator met fewer than two values
    | QueueFull                    // the task could not be sent: the queue stayed full
    | NoAnswer                     // no result ever arrived for the task

  /** The state after a run: `created` lists every task CreateTask issued, in order. */
  datatype Run = Run(tm: TaskManager, em: ExpressionManager, created: seq<Task>, halt: Halt)

  /** The queue once `task` has been sent onto `queue` and the agents have
      done what `worker` says: a received task leaves with everything ahead of it. */
  function Drained(queue: seq<Task>, task: Task, worker: Worker): seq<Task> {
    if worker(task).Untaken? then queue + [task] else []
  }

  /** The queue after the tasks `sent` have been sent one after another. */
  function DrainedAll(queue: seq<Task>, sent: seq<Task>, worker: Worker): seq<Task>
    decreases |sent|
  {
    if sent == [] then queue else DrainedAll(Drained(queue, sent[0], worker), sent[1..], worker)
  }

  /** The result a receive on the mailbox yields: one already waiting there
      (sent for an earlier task, since ResultTask does not check task ids)
      comes first, and the answer to `task` then waits in the mailbox in its
      place; otherwise the answer to `task`, if an agent sends one. */
  function Await(tm: TaskManager, task: Task, worker: Worker): (r: Option<(TaskManager, TaskResult)>)
    requires TaskManagers.Valid(tm)
    ensures |tm.slot| > 0 ==> r.Some? && r.value.1 == tm.slot[0]
    ensures |tm.slot| > 0 && worker(task).Sent? ==> r.value.0 == tm.(slot := [worker(task).result])
    ensures |tm.slot| > 0 && !worker(task).Sent? ==> r.value.0 == tm.(slot := [])
    ensures |tm.slot| == 0 ==> (r.Some? <==> worker(task).Sent?)
    ensures |tm.slot| == 0 && r.Some? ==> r.value == (tm, worker(task).result)
  {
    if |tm.slot| > 0 then
      var (tm1, stale) := GetResult(tm);
      match worker(task)
      case Sent(res) => Some((AddResult(tm1, res), stale))
      case _ => Some((tm1, stale))
    else match worker(task)
      case Sent(res) =>
        ResultRoundTrip(tm, res);
        Some(GetResult(AddResult(tm, res)))
      case _ => None
  }

  /** What one operator token does once its two values are popped. */
  datatype Issue =
    | Answered(tm: TaskManager, em: ExpressionManager, task: Task, value: real)
    | Blocked(tm: TaskManager, em: ExpressionManager, task: Task, halt: Halt)

  /** CreateTask on the popped values (arg2 the top, arg1 the one below), then
      AddTask on the shared queue, then a receive on the mailbox. A full queue
      lets the task in only if the agents ever receive it, which frees room. */
  function IssueTask(stack: seq<real>, tm: TaskManager, em: ExpressionManager, op: string,
                     exprId: Id, worker: Worker): (r: Issue)
    requires |stack| >= 2 && TaskManagers.Valid(tm) && |em.queue| <= QueueCapacity
    ensures r.task == Task(exprId, tm.counter + 1, stack[|stack| - 2], stack[|stack| - 1], op, Duration(tm.durations, op))
    ensures r.tm.counter == tm.counter + 1 && r.tm.durations == tm.durations && TaskManagers.Valid(r.tm)
    ensures r.Blocked? && r.halt == QueueFull <==> |em.queue| == QueueCapacity && worker(r.task).Untaken?
    ensures r.Blocked? && r.halt == QueueFull ==> r.em == em
    ensures r.Blocked? ==> r.halt == QueueFull || r.halt == NoAnswer
    ensures r.Blocked? && r.halt == NoAnswer <==> |tm.slot| == 0 && !worker(r.task).Sent? && !(|em.queue| == QueueCapacity && worker(r.task).Untaken?)
    ensures !(r.Blocked? && r.halt == QueueFull) ==> r.em.queue == Drained(em.queue, r.task, worker)
    ensures worker(r.task).Untaken? && !(r.Blocked? && r.halt == QueueFull) ==> r.em.queue == em.queue + [r.task]
    ensures !worker(r.task).Untaken? ==> r.em.queue == []
    ensures r.em.expressions == em.expressions && r.em.taskManagers == em.taskManagers
    ensures r.em.durations == em.durations && |r.em.queue| <= QueueCapacity
    ensures r.Answered? && |tm.slot| == 0 ==> worker(r.task).Sent? && r.value == worker(r.task).result.value && r.tm.slot == []
    ensures r.Answered? && |tm.slot| > 0 ==> r.value == tm.slot[0].value
  {
    var (tm1, task) := CreateTask(tm, stack[|stack| - 2], stack[|stack| - 1], op, exprId);
    if |em.queue| == QueueCapacity && worker(task).Untaken? then Blocked(tm1, em, task, QueueFull)
    else
      var em1 := em.(queue := Drained(em.queue, task, worker));
      match Await(tm1, task, worker)
      case None => Blocked(tm1, em1, task, NoAnswer)
      case Some((tm2, res)) => Answered(tm2, em1, task, res.value)
  }

  /** The dispatch loop over the remaining `tokens`, from value stack `stack`. */
  function Dispatch(tokens: seq<string>, stack: seq<real>, tm: TaskManager, em: ExpressionManager,
                    exprId: Id, worker: Worker): (r: Run)
    requires TaskManagers.Valid(tm) && |em.queue| <= QueueCapacity
    ensures r.em.expressions == em.expressions && r.em.taskManagers == em.taskManagers
    ensures r.em.durations == em.durations && r.tm.durations == tm.durations
    decreases |tokens|
  {
    if tokens == [] then Run(tm, em, [], Finished(stack))
    else match ParseFloat(tokens[0])
      case Some(x) => Dispatch(tokens[1..], stack + [x], tm, em, exprId, worker)
      case None =>
        if |stack| < 2 then Run(tm, em, [], Underflow)
        else match IssueTask(stack, tm, em, tokens[0], exprId, worker)
          case Blocked(tm1, em1, task, halt) => Run(tm1, em1, [task], halt)
          case Answered(tm1, em1, task, v) =>
            var rest := Dispatch(tokens[1..], stack[..|stack| - 2] + [v], tm1, em1, exprId, worker);
            rest.(created := [task] + rest.created)
  }

  /** Task ids follow the manager's counter without gaps, and every task
      carries the expression's id. */
  lemma {:induction false} DispatchIds(tokens: seq<string>, stack: seq<real>, tm: TaskManager, em: ExpressionManager,
                                       exprId: Id, worker: Worker)
    requires TaskManagers.Valid(tm) && |em.queue| <= QueueCapacity
    ensures var r := Dispatch(tokens, stack, tm, em, exprId, worker);
      && r.tm.counter == tm.counter + |r.created|
      && (forall k :: 0 <= k < |r.created| ==> r.created[k].taskId == tm.counter + k + 1)
      && (forall k :: 0 <= k < |r.created| ==> r.created[k].exprId == exprId)
    decreases |tokens|
  {
    if tokens != [] {
      match ParseFloat(tokens[0])
      case Some(x) =>
        DispatchIds(tokens[1..], stack + [x], tm, em, exprId, worker);
      case None =>
        if |stack| >= 2 {
          match IssueTask(stack, tm, em, tokens[0], exprId, worker)
          case Blocked(_, _, _, _) =>
          case Answered(tm1, em1, task, v) =>
            DispatchIds(tokens[1..], stack[..|stack| - 2] + [v], tm1, em1, exprId, worker);
            var rest := Dispatch(tokens[1..], stack[..|stack| - 2] + [v], tm1, em1, exprId, worker);
            IdsPrepend(task, rest.created, tm.counter, exprId);
        }
    }
  }

  lemma IdsPrepend(task: Task, created: seq<Task>, base: nat, exprId: Id)
    requires task.taskId == base + 1 && task.exprId == exprId
    requires forall k :: 0 <= k < |created| ==> created[k].taskId == base + 1 + k + 1
    requires forall k :: 0 <= k < |created| ==> created[k].exprId == exprId
    ensures forall k :: 0 <= k < |[task] + created| ==> ([task] + created)[k].taskId == base + k + 1
    ensures forall k :: 0 <= k < |[task] + created| ==> ([task] + created)[k].exprId == exprId
  {
    var all := [task] + created;
    assert forall k :: 1 <= k < |all| ==> all[k] == created[k - 1];
  }

  /** The queue a run leaves is the one the agents leave when the run's tasks
      are sent in creation order; a task met by a full queue that nobody
      drains is created but never sent. */
  lemma DispatchQueue(tokens: seq<string>, stack: seq<real>, tm: TaskManager, em: ExpressionManager,
                      exprId: Id, worker: Worker)
    requires TaskManagers.Valid(tm) && |em.queue| <= QueueCapacity
    ensures var r := Dispatch(tokens, stack, tm, em, exprId, worker);
      && (r.halt != QueueFull ==> r.em.queue == DrainedAll(em.queue, r.created, worker))
      && (r.halt == QueueFull ==> |r.created| > 0 && r.em.queue == DrainedAll(em.queue, r.created[..|r.created| - 1], worker))
      && (r.halt == QueueFull ==> worker(r.created[|r.created| - 1]).Untaken?)
  {
    QueueAccountedBy(tokens, stack, tm, em, exprId, worker);
  }

  /** The three clauses of DispatchQueue, for a run started from queue `q`. */
  predicate QueueAccounted(r: Run, q: seq<Task>, worker: Worker) {
    && (r.halt != QueueFull ==> r.em.queue == DrainedAll(q, r.created, worker))
    && (r.halt == QueueFull ==> |r.created| > 0 && r.em.queue == DrainedAll(q, r.created[..|r.created| - 1], worker))
    && (r.halt == QueueFull ==> worker(r.created[|r.created| - 1]).Untaken?)
  }

  lemma {:induction false} QueueAccountedBy(tokens: seq<string>, stack: seq<real>, tm: TaskManager, em: ExpressionManager,
                                            exprId: Id, worker: Worker)
    requires TaskManagers.Valid(tm) && |em.queue| <= QueueCapacity
    ensures QueueAccounted(Dispatch(tokens, stack, tm, em, exprId, worker), em.queue, worker)
    decreases |tokens|
  {
    if tokens != [] {
      match ParseFloat(tokens[0])
      case Some(x) =>
        QueueAccountedBy(tokens[1..], stack + [x], tm, em, exprId, worker);
      case None =>
        if |stack| >= 2 {
          match IssueTask(stack, tm, em, tokens[0], exprId, worker)
          case Blocked(_, _, task, _) =>
            assert [task][..0] == [] && [task][1..] == [];
          case Answered(tm1, em1, task, v) =>
            QueueAccountedBy(tokens[1..], stack[..|stack| - 2] + [v], tm1, em1, exprId, worker);
            var rest := Dispatch(tokens[1..], stack[..|stack| - 2] + [v], tm1, em1, exprId, worker);
            assert Dispatch(tokens, stack, tm, em, exprId, worker) == rest.(created := [task] + rest.created);
            SentFirst(em.queue, task, rest, worker);
        }
    }
  }

  lemma SentFirst(q: seq<Task>, t: Task, rest: Run, worker: Worker)
    requires QueueAccounted(rest, Drained(q, t, worker), worker)
    ensures QueueAccounted(rest.(created := [t] + rest.created), q, worker)
  {
    var c := rest.created;
    assert ([t] + c)[0] == t && ([t] + c)[1..] == c;
    if |c| > 0 {
      var p := ([t] + c)[..|c|];
      assert p[0] == t && p[1..] == c[..|c| - 1];
      assert ([t] + c)[|c|] == c[|c| - 1];
    }
  }

  /** What the agents leave on the queue: tasks that were there before, or
      sent tasks nobody receives. If nobody receives any, every sent task is
      still there, in order; once the last one is received, the queue is empty. */
  lemma {:induction false} DrainedAllKeepsUntaken(q: seq<Task>, sent: seq<Task>, worker: Worker)
    ensures forall t :: t in DrainedAll(q, sent, worker) ==> t in q || (t in sent && worker(t).Untaken?)
    ensures (forall k :: 0 <= k < |sent| ==> worker(sent[k]).Untaken?) ==> DrainedAll(q, sent, worker) == q + sent
    ensures |sent| > 0 && !worker(sent[|sent| - 1]).Untaken? ==> DrainedAll(q, sent, worker) == []
    decreases |sent|
  {
    if sent != [] {
      var q1 := Drained(q, sent[0], worker);
      DrainedAllKeepsUntaken(q1, sent[1..], worker);
      forall t | t in DrainedAll(q, sent, worker)
        ensures t in q || (t in sent && worker(t).Untaken?)
      {
        if t in q1 && t !in q {
          assert t == sent[0];
        }
        if t in sent[1..] {
          assert t in sent;
        }
      }
      if forall k :: 0 <= k < |sent| ==> worker(sent[k]).Untaken? {
        assert forall k :: 0 <= k < |sent[1..]| ==> worker(sent[1..][k]).Untaken? by {
          forall k | 0 <= k < |sent[1..]| ensures worker(sent[1..][k]).Untaken? {
            assert sent[1..][k] == sent[k + 1];
          }
        }
        assert worker(sent[0]).Untaken?;
        assert q1 + sent[1..] == q + sent;
      }
      if |sent| > 1 {
        assert sent[1..][|sent[1..]| - 1] == sent[|sent| - 1];
      }
    }
  }

  /** The run follows the shape of the token list whatever the worker answers:
      it underflows exactly where the shape does (unless it stopped waiting
      before), and a finished run leaves the predicted number of values after
      one task per operator. */
  lemma {:induction false} DispatchShape(tokens: seq<string>, stack: seq<real>, tm: TaskManager, em: ExpressionManager,
                                         exprId: Id, worker: Worker)
    requires TaskManagers.Valid(tm) && |em.queue| <= QueueCapacity
    ensures var r := Dispatch(tokens, stack, tm, em, exprId, worker);
      && |r.created| <= Postfix.OperatorCount(tokens)
      && (r.halt.Finished? ==> |r.created| == Postfix.OperatorCount(tokens))
      && (r.halt.Finished? ==> Postfix.Height(tokens, |stack|) == Some(|r.halt.stack|))
      && (r.halt.Underflow? ==> Postfix.Height(tokens, |stack|).None?)
      && (Postfix.Height(tokens, |stack|).None? ==> !r.halt.Finished?)
    decreases |tokens|
  {
    if tokens != [] {
      match ParseFloat(tokens[0])
      case Some(x) =>
        DispatchShape(tokens[1..], stack + [x], tm, em, exprId, worker);
      case None =>
        if |stack| >= 2 {
          match IssueTask(stack, tm, em, tokens[0], exprId, worker)
          case Blocked(_, _, _, _) =>
          case Answered(tm1, em1, task, v) =>
            DispatchShape(tokens[1..], stack[..|stack| - 2] + [v], tm1, em1, exprId, worker);
        }
    }
  }
}
