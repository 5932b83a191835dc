/** src/utils.ts: the stand-alone lazy-loading scroll helper. */
module Utils {
  import opened Wrappers
  import opened Browser

  /**
   * `scroll(page)`: measure the page once, then `while (++i <= n)` from
   * `i = -1` scroll by one viewport and wait 100 ms. `n` is the measured
   * step count; `failAt` is the number of the action that throws, if any,
   * which rejects the returned promise (`completed` is false).
   */
  method Scroll(n: int, failAt: Option<nat>) returns (issued: seq<Action>, completed: bool)
    ensures Attempt(issued, completed) == Perform(ScrollPlan(n), failAt)
  {
    issued := [MeasureHeight];
    if failAt == Some(0) {
      return issued, false;
    }
    var i := -1;
    i := i + 1;  // the `++i` of the first test
    while i <= n
      invariant 0 <= i <= StepCount(n)
      invariant issued == [MeasureHeight] + ScrollPairs(i)
      invariant failAt.None? || failAt.value >= |issued|
    {
      PairsCut([MeasureHeight], StepCount(n), i);
      issued := issued + [ScrollBy];
      if failAt == Some(|issued| - 1) {
        return issued, false;
      }
      issued := issued + [Wait(SettleMs)];
      if failAt == Some(|issued| - 1) {
        return issued, false;
      }
      i := i + 1;  // the `++i` of the next test
    }
    ScrollPairsShape(i);
    completed := true;
  }
}
