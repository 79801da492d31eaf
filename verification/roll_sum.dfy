/**
 * The reduction `rolls.reduce((sum, roll) => sum + roll.result, 0)` that both the
 * roll server and the results panel perform, and a reference sum to judge it by.
 */
module RollSum {
  import opened SharedTypes

  /** The left fold `reduce` performs, starting from the accumulator `acc`. */
  function FoldResults(acc: int, rolls: seq<DiceRoll>): int
    decreases |rolls|
  {
    if |rolls| == 0 then acc else FoldResults(acc + rolls[0].result, rolls[1..])
  }

  /** The reduction with the initial value `0`. */
  function SumResults(rolls: seq<DiceRoll>): (sum: int)
    ensures sum == ResultSum(rolls)
  {
    FoldIsResultSum(0, rolls);
    FoldResults(0, rolls)
  }

  /** Reference definition: the arithmetic sum of the results. */
  function ResultSum(rolls: seq<DiceRoll>): int
  {
    if |rolls| == 0 then 0 else rolls[0].result + ResultSum(rolls[1..])
  }

  /** The fold adds exactly the sum of the results to its accumulator. */
  lemma {:induction false} FoldIsResultSum(acc: int, rolls: seq<DiceRoll>)
    ensures FoldResults(acc, rolls) == acc + ResultSum(rolls)
    decreases |rolls|
  {
    if |rolls| > 0 {
      FoldIsResultSum(acc + rolls[0].result, rolls[1..]);
    }
  }

  /** Appending a roll adds its result to the reference sum. */
  lemma {:induction false} ResultSumAppend(rolls: seq<DiceRoll>, r: DiceRoll)
    ensures ResultSum(rolls + [r]) == ResultSum(rolls) + r.result
    decreases |rolls|
  {
    if |rolls| == 0 {
      assert rolls + [r] == [r];
    } else {
      assert (rolls + [r])[1..] == rolls[1..] + [r];
      ResultSumAppend(rolls[1..], r);
    }
  }

  /** The reduction as the server and the results panel write it: empty gives 0, appending adds the new result. */
  lemma SumResultsAppend(rolls: seq<DiceRoll>, r: DiceRoll)
    ensures SumResults([]) == 0
    ensures SumResults(rolls + [r]) == SumResults(rolls) + r.result
  {
    ResultSumAppend(rolls, r);
  }
}
