/**
 * The browser-side collaborators of the scraper, as values: the actions a
 * page session issues (puppeteer's launch, newPage, goto, evaluate, scroll,
 * waitForTimeout and close), the plan of actions a load phase follows, the
 * way a throwing action cuts that plan short, and the rendered document
 * that the extraction queries read.
 */
module Browser {
  import opened Wrappers

  datatype Action =
    | Launch               // browserLaunch()
    | NewPage              // browser.newPage()
    | Goto(url: string)    // page.goto(url)
    | MeasureHeight        // evaluate ceil(scrollHeight / viewport height)
    | ScrollBy             // evaluate window.scrollBy(0, viewport height)
    | Wait(ms: nat)        // page.waitForTimeout(ms)
    | Close                // browser.close()

  /** The settle delay after each scroll step, in milliseconds. */
  const SettleMs: nat := 100

  /** How often `i = 0; while (i <= n) { ...; i++ }` runs its body. */
  function StepCount(n: int): nat
  {
    if n < 0 then 0 else n + 1
  }

  /** `m` scroll steps, each a scroll by one viewport followed by the settle wait. */
  function ScrollPairs(m: nat): seq<Action>
  {
    if m == 0 then [] else ScrollPairs(m - 1) + [ScrollBy, Wait(SettleMs)]
  }

  /** Measure the page once, then scroll `StepCount(n)` times for the measured `n`. */
  function ScrollPlan(n: int): seq<Action>
  {
    [MeasureHeight] + ScrollPairs(StepCount(n))
  }

  /** The actions actually issued, and whether none of them threw. */
  datatype Attempt = Attempt(issued: seq<Action>, completed: bool)

  /**
   * Issuing `plan` on a page whose action number `failAt` (counted from 0)
   * throws: the actions up to and including the throwing one.
   */
  function Perform(plan: seq<Action>, failAt: Option<nat>): Attempt
  {
    if failAt.Some? && failAt.value < |plan| then Attempt(plan[..failAt.value + 1], false)
    else Attempt(plan, true)
  }

  /** An action of the fixed head of a plan that throws cuts the plan inside that head. */
  lemma PerformInHead(head: seq<Action>, tail: seq<Action>, k: nat)
    requires k < |head|
    ensures Perform(head + tail, Some(k)) == Attempt(head[..k + 1], false)
  {
    assert (head + tail)[..k + 1] == head[..k + 1];
  }

  function Count(trace: seq<Action>, a: Action): nat
  {
    if trace == [] then 0 else (if trace[0] == a then 1 else 0) + Count(trace[1..], a)
  }

  lemma {:induction false} CountAppend(s: seq<Action>, t: seq<Action>, a: Action)
    ensures Count(s + t, a) == Count(s, a) + Count(t, a)
  {
    if s == [] {
      assert s + t == t;
    } else {
      assert (s + t)[1..] == s[1..] + t;
      CountAppend(s[1..], t, a);
    }
  }

  lemma {:induction false} CountAbsent(s: seq<Action>, a: Action)
    requires a !in s
    ensures Count(s, a) == 0
  {
    if s != [] {
      CountAbsent(s[1..], a);
    }
  }

  lemma {:induction false} CountPrefix(s: seq<Action>, k: nat, a: Action)
    requires k <= |s|
    ensures Count(s[..k], a) <= Count(s, a)
  {
    assert s == s[..k] + s[k..];
    CountAppend(s[..k], s[k..], a);
  }

  /**
   * `m` scroll steps are `2m` actions alternating scroll and wait, starting
   * with a scroll; they hold `m` scrolls, `m` waits and nothing else.
   */
  lemma {:induction false} ScrollPairsShape(m: nat)
    ensures |ScrollPairs(m)| == 2 * m
    ensures forall j :: 0 <= j < 2 * m ==>
              ScrollPairs(m)[j] == if j % 2 == 0 then ScrollBy else Wait(SettleMs)
    ensures forall a :: Count(ScrollPairs(m), a) ==
              if a == ScrollBy || a == Wait(SettleMs) then m else 0
  {
    if m > 0 {
      ScrollPairsShape(m - 1);
      forall a ensures Count(ScrollPairs(m), a) ==
                       if a == ScrollBy || a == Wait(SettleMs) then m else 0
      {
        CountAppend(ScrollPairs(m - 1), [ScrollBy, Wait(SettleMs)], a);
        var step := [ScrollBy, Wait(SettleMs)];
        assert step[1..] == [Wait(SettleMs)] && step[1..][1..] == [];
        assert Count(step[1..], a) == if a == Wait(SettleMs) then 1 else 0;
      }
    }
  }

  /** The first `i` scroll steps of a longer run are a prefix of it. */
  lemma {:induction false} ScrollPairsPrefix(i: nat, m: nat)
    requires i <= m
    ensures |ScrollPairs(m)| == 2 * m
    ensures ScrollPairs(m)[..2 * i] == ScrollPairs(i)
  {
    if i < m {
      ScrollPairsPrefix(i, m - 1);
      assert ScrollPairs(m)[..2 * i] == ScrollPairs(m - 1)[..2 * i];
    } else {
      ScrollPairsShape(m);
    }
  }

  /**
   * In a plan `head + ScrollPairs(m)`, cutting after the scroll of step
   * `i` leaves `i` whole steps and that scroll; cutting after its wait
   * leaves `i + 1` whole steps.
   */
  lemma PairsCut(head: seq<Action>, m: nat, i: nat)
    requires i < m
    ensures |head + ScrollPairs(m)| == |head| + 2 * m
    ensures (head + ScrollPairs(m))[..|head| + 2 * i + 1] == head + ScrollPairs(i) + [ScrollBy]
    ensures (head + ScrollPairs(m))[..|head| + 2 * i + 2] == head + ScrollPairs(i + 1)
  {
    ScrollPairsPrefix(i + 1, m);
    var plan := head + ScrollPairs(m);
    assert plan[..|head| + 2 * i + 2] == head + ScrollPairs(m)[..2 * (i + 1)];
    assert plan[..|head| + 2 * i + 1] == (head + ScrollPairs(i + 1))[..|head| + 2 * i + 1];
    ScrollPairsShape(i);
  }

  /**
   * The measured height is read once, before any scroll; then `StepCount(n)`
   * scrolls are issued, each immediately followed by one settle wait; for
   * `n < 0` nothing is scrolled.
   */
  lemma ScrollPlanShape(n: int)
    ensures |ScrollPlan(n)| == 1 + 2 * StepCount(n)
    ensures ScrollPlan(n)[0] == MeasureHeight && Count(ScrollPlan(n), MeasureHeight) == 1
    ensures Count(ScrollPlan(n), ScrollBy) == StepCount(n)
    ensures Count(ScrollPlan(n), Wait(SettleMs)) == StepCount(n)
    ensures n < 0 ==> Count(ScrollPlan(n), ScrollBy) == 0
    ensures forall j :: 0 <= j < |ScrollPlan(n)| && ScrollPlan(n)[j] == ScrollBy ==>
              j + 1 < |ScrollPlan(n)| && ScrollPlan(n)[j + 1] == Wait(SettleMs)
  {
    var m := StepCount(n);
    ScrollPairsShape(m);
    assert ScrollPlan(n)[1..] == ScrollPairs(m);
    forall j | 0 <= j < |ScrollPlan(n)| && ScrollPlan(n)[j] == ScrollBy
      ensures j + 1 < |ScrollPlan(n)| && ScrollPlan(n)[j + 1] == Wait(SettleMs)
    {
      assert ScrollPlan(n)[j] == ScrollPairs(m)[j - 1];
      assert (j - 1) % 2 == 0;
      assert ScrollPlan(n)[j + 1] == ScrollPairs(m)[j];
    }
  }

  // The rendered document.

  /** A `<meta>` element: its `name` and `property` attributes and its `content` property. */
  datatype Meta = Meta(name: Option<string>, property: Option<string>, content: string)

  /** An `<a>` element: its `href` attribute as written, and its resolved `href` property. */
  datatype Anchor = Anchor(hrefAttr: Option<string>, href: string)

  /**
   * The document after loading: the root element's `lang` (if the root is
   * an `<html>` element), the `<title>` element's text (if there is one),
   * and the `<meta>` and `<a>` elements in document order.
   */
  datatype Document = Document(html: Option<string>, title: Option<string>,
                               metas: seq<Meta>, anchors: seq<Anchor>)

  /** `querySelector`: the first element in document order that the selector matches. */
  function QuerySelector<T>(elements: seq<T>, matches: T -> bool): (r: Option<nat>)
    ensures r.Some? ==> r.value < |elements| && matches(elements[r.value])
    ensures r.Some? ==> forall j :: 0 <= j < r.value ==> !matches(elements[j])
    ensures r.None? ==> forall j :: 0 <= j < |elements| ==> !matches(elements[j])
    decreases |elements|
  {
    if |elements| == 0 then None
    else if matches(elements[0]) then Some(0)
    else
      match QuerySelector(elements[1..], matches)
      case None => None
      case Some(k) => Some(k + 1)
  }

  /**
   * What a session on one URL will do: whether the browser launches, the
   * step count the height measurement yields, which load-phase action (if
   * any) throws, and the document the page renders.
   */
  datatype Session = Session(launches: bool, steps: int, failAt: Option<nat>, doc: Document)
}
