/** The earlier expression registry of internal/orchestrator/expression_processor.go:
    expressions keyed by ids a counter hands out, 1, 2, 3, ... */
module LegacyExpressions {
  import opened Wrappers
  import Models
  import Maps

  /** One expression; `result` is a plain float64, 0 until set. */
  datatype Expression = Expression(id: nat, status: Models.Status, result: real)

  datatype ExpressionManager = ExpressionManager(expressions: map<nat, Expression>, counter: nat)

  /** Every expression sits under its own id, which the counter has issued. */
  predicate Valid(em: ExpressionManager) {
    forall id :: id in em.expressions ==> 1 <= id <= em.counter && em.expressions[id].id == id
  }

  function NewExpressionManager(): (em: ExpressionManager)
    ensures Valid(em) && em.expressions == map[] && em.counter == 0
  {
    ExpressionManager(map[], 0)
  }

  /** Raises the counter and registers a pending expression under the new
      value, which it returns. */
  function CreateExpression(em: ExpressionManager): (r: (ExpressionManager, nat))
    ensures r.1 == em.counter + 1 && r.0.counter == r.1
    ensures r.0.expressions == em.expressions[r.1 := Expression(r.1, Models.Pending, 0.0)]
    ensures Valid(em) ==> Valid(r.0) && r.1 !in em.expressions
  {
    var id := em.counter + 1;
    (ExpressionManager(em.expressions[id := Expression(id, Models.Pending, 0.0)], id), id)
  }

  function GetExpression(em: ExpressionManager, id: nat): (r: Option<Expression>)
    ensures r.Some? <==> id in em.expressions
    ensures r.Some? ==> r.value == em.expressions[id]
  {
    if id in em.expressions then Some(em.expressions[id]) else None
  }

  /** Every registered expression, one per id, in an unspecified order. */
  method GetExpressions(em: ExpressionManager) returns (r: seq<Expression>)
    ensures |r| == |em.expressions.Keys|
    ensures forall id :: id in em.expressions ==> em.expressions[id] in r
    ensures forall i :: 0 <= i < |r| ==> r[i] in em.expressions.Values
  {
    r := Maps.Values(em.expressions);
  }

  /** Marks a registered expression done with its value; unknown ids are ignored. */
  function ExpressionDone(em: ExpressionManager, id: nat, value: real): (r: ExpressionManager)
    ensures r.expressions.Keys == em.expressions.Keys && r.counter == em.counter
    ensures id in em.expressions ==> r.expressions[id] == em.expressions[id].(status := Models.Done, result := value)
    ensures forall other :: other in em.expressions && other != id ==> r.expressions[other] == em.expressions[other]
  {
    if id in em.expressions then
      em.(expressions := em.expressions[id := em.expressions[id].(status := Models.Done, result := value)])
    else em
  }

  /** Marks a registered expression invalid and resets its result to 0;
      unknown ids are ignored. */
  function ExpressionError(em: ExpressionManager, id: nat): (r: ExpressionManager)
    ensures r.expressions.Keys == em.expressions.Keys && r.counter == em.counter
    ensures id in em.expressions ==> r.expressions[id] == em.expressions[id].(status := Models.Invalid, result := 0.0)
    ensures forall other :: other in em.expressions && other != id ==> r.expressions[other] == em.expressions[other]
  {
    if id in em.expressions then
      em.(expressions := em.expressions[id := em.expressions[id].(status := Models.Invalid, result := 0.0)])
    else em
  }

  /** Successive registrations get ids 1, 2, 3, ...: the n-th one from a new
      registry has id n and is found pending with result 0. */
  lemma {:induction false} CreateCountsFromOne(n: nat)
    ensures var (em, id) := CreateMany(n + 1);
      && id == n + 1 && Valid(em) && em.counter == n + 1
      && GetExpression(em, id) == Some(Expression(id, Models.Pending, 0.0))
      && (forall k :: 1 <= k <= n + 1 <==> k in em.expressions)
  {
    if n > 0 {
      CreateCountsFromOne(n - 1);
    }
  }

  /** `n` registrations on a new registry; the last id issued (0 if none). */
  function CreateMany(n: nat): (r: (ExpressionManager, nat))
    ensures Valid(r.0)
  {
    if n == 0 then (NewExpressionManager(), 0)
    else CreateExpression(CreateMany(n - 1).0)
  }

  /** Neither transition looks at the current status: the later call wins,
      and an error after completion also discards the value. */
  lemma LaterTransitionWins(em: ExpressionManager, id: nat, value: real)
    requires id in em.expressions
    ensures GetExpression(ExpressionError(ExpressionDone(em, id, value), id), id)
         == Some(em.expressions[id].(status := Models.Invalid, result := 0.0))
    ensures GetExpression(ExpressionDone(ExpressionError(em, id), id, value), id)
         == Some(em.expressions[id].(status := Models.Done, result := value))
  {
  }

  /** On an unregistered id both transitions change nothing and the lookup
      reports absence. */
  lemma TransitionsIgnoreUnknown(em: ExpressionManager, id: nat, value: real)
    requires id !in em.expressions
    ensures ExpressionDone(em, id, value) == em
    ensures ExpressionError(em, id) == em
    ensures GetExpression(em, id) == None
  {
  }
}
