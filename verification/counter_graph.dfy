/** The single-node counting graph: its state is a dictionary and its one
    node increments the `count` entry, treating a missing entry as 0. */
module CounterGraph {
  import opened Common

  /** The dictionary values the node can meet. Python's `bool` is a kind of
      `int` (`True + 1 == 2`); strings and `None` cannot be added to 1. */
  datatype Value = IntV(i: int) | BoolV(b: bool) | StrV(s: string) | NoneV

  type GraphState = map<string, Value>

  /** The error the node raises: the operand `+ 1` could not be applied to. */
  datatype StepError = TypeError(operand: Value)

  const CountKey: string := "count"

  /** Whether `v + 1` is defined. */
  predicate Addable(v: Value)
  {
    v.IntV? || v.BoolV?
  }

  /** The integer a numeric value stands for. */
  function AsInt(v: Value): int
    requires Addable(v)
  {
    match v
    case IntV(i) => i
    case BoolV(b) => if b then 1 else 0
  }

  /** The counter value the node reads: the stored value, or 0 if absent. */
  function CurrentCount(state: GraphState): Value
  {
    if CountKey in state then state[CountKey] else IntV(0)
  }

  /** The node: store one more than the current count. A count that cannot
      be incremented raises, and the state is then left as it was. */
  function Step(state: GraphState): (r: Result<GraphState, StepError>)
    ensures CountKey !in state ==> r == Success(state[CountKey := IntV(1)])
    ensures forall n :: CountKey in state && state[CountKey] == IntV(n) ==> r == Success(state[CountKey := IntV(n + 1)])
    ensures forall b :: CountKey in state && state[CountKey] == BoolV(b) ==>
              r == Success(state[CountKey := IntV(if b then 2 else 1)])
    ensures r.Failure? <==> CountKey in state && (state[CountKey].StrV? || state[CountKey].NoneV?)
    ensures r.Failure? ==> r.error == TypeError(state[CountKey])
    ensures r.Success? ==>
              && r.value.Keys == state.Keys + {CountKey}
              && r.value[CountKey].IntV?
              && (forall k :: k in state && k != CountKey ==> r.value[k] == state[k])
  {
    var current := CurrentCount(state);
    if Addable(current) then Success(state[CountKey := IntV(AsInt(current) + 1)])
    else Failure(TypeError(current))
  }

  /** Applying the node `k` times in a row, each step starting from the
      previous result, stopping at the first error. */
  function Run(state: GraphState, k: nat): (r: Result<GraphState, StepError>)
    decreases k
  {
    if k == 0 then Success(state)
    else
      match Step(state)
      case Success(next) => Run(next, k - 1)
      case Failure(e) => Failure(e)
  }

  /** From an integer count `n`, `k` steps give count `n + k` and touch
      nothing else. */
  lemma {:induction false} RunAddsSteps(state: GraphState, n: int, k: nat)
    requires CountKey in state && state[CountKey] == IntV(n)
    ensures Run(state, k) == Success(state[CountKey := IntV(n + k)])
    decreases k
  {
    if k > 0 {
      var next := state[CountKey := IntV(n + 1)];
      assert Step(state) == Success(next);
      assert Run(state, k) == Run(next, k - 1);
      RunAddsSteps(next, n + 1, k - 1);
      assert next[CountKey := IntV(n + 1 + (k - 1))] == state[CountKey := IntV(n + k)];
    } else {
      assert state[CountKey := IntV(n)] == state;
    }
  }

  /** From a state without a count, `k` steps give count `k`. */
  lemma RunCountsFromNothing(state: GraphState, k: nat)
    requires CountKey !in state
    ensures k > 0 ==> Run(state, k) == Success(state[CountKey := IntV(k)])
    ensures k == 0 ==> Run(state, k) == Success(state)
  {
    if k > 0 {
      var first := state[CountKey := IntV(1)];
      RunAddsSteps(first, 1, k - 1);
      assert first[CountKey := IntV(1 + (k - 1))] == state[CountKey := IntV(k)];
    }
  }
}
