/**
 * src/index.ts: compose every input URL, keep the first ten, and scrape
 * them in consecutive batches of `partition`, appending each batch's
 * results in input order.
 */
module Index {
  import opened Url
  import opened Browser
  import Scraper

  /** One entry of the input JSON array; only its `url` field is read. */
  datatype Item = Item(url: string)

  /**
   * How `read(INPUT_PATH)` settled: rejected (or its data could not be
   * mapped), or resolved with the array of entries.
   */
  datatype ReadOutcome = ReadRejected | ReadResolved(items: seq<Item>)

  /** `Number(BATCH_SIZE)`, for an unset, empty or integral setting. */
  datatype NumberValue = NaN | Num(value: int)

  /** `urls.slice(0, 10)`: the most URLs one run scrapes. */
  const Cap: nat := 10

  /** The partition used when `Number(BATCH_SIZE)` is falsy. */
  const DefaultPartition: int := 5

  function Min(a: int, b: int): int
  {
    if a <= b then a else b
  }

  /**
   * `Number(BATCH_SIZE) || 5`: the numeric setting unless it is falsy
   * (0 or NaN), in which case 5.
   */
  function Partition(batchSize: NumberValue): (p: int)
    ensures p != 0
    ensures batchSize.NaN? || batchSize.value == 0 ==> p == DefaultPartition
    ensures batchSize.Num? && batchSize.value != 0 ==> p == batchSize.value
    ensures batchSize.NaN? || batchSize.value >= 0 ==> p >= 1
  {
    if batchSize.NaN? || batchSize.value == 0 then DefaultPartition else batchSize.value
  }

  /** `data.map(d => compose(d.url))`: one composed URL per entry, in order, empty results kept. */
  function ComposeAll(items: seq<Item>, parsers: Parsers): (urls: seq<string>)
    ensures |urls| == |items|
    ensures forall j :: 0 <= j < |items| ==> urls[j] == Compose(items[j].url, parsers)
  {
    if items == [] then [] else [Compose(items[0].url, parsers)] + ComposeAll(items[1..], parsers)
  }

  /** The `urls` array: the composed entries, or none when the read failed. */
  function Urls(input: ReadOutcome, parsers: Parsers): seq<string>
  {
    match input
    case ReadRejected => []
    case ReadResolved(items) => ComposeAll(items, parsers)
  }

  /** `urls.slice(0, 10)`. */
  function Capped(urls: seq<string>): (list: seq<string>)
    ensures |list| == Min(|urls|, Cap)
    ensures forall j :: 0 <= j < |list| ==> list[j] == urls[j]
  {
    urls[..Min(|urls|, Cap)]
  }

  lemma MulSucc(r: int, p: int)
    ensures (r + 1) * p == r * p + p
  {
  }

  /** The batches the loop cuts: `list.slice(i, i + partition)` for i = 0, p, 2p, ... */
  function Batches(list: seq<string>, p: int): seq<seq<string>>
    requires p >= 1 || list == []
    decreases |list|
  {
    if list == [] then [] else
      var m := Min(p, |list|);
      [list[..m]] + Batches(list[m..], p)
  }

  function Flatten(batches: seq<seq<string>>): seq<string>
  {
    if batches == [] then [] else batches[0] + Flatten(batches[1..])
  }

  /** The batches are consecutive and non-overlapping: joined up they are the list again. */
  lemma {:induction false} BatchesRebuildList(list: seq<string>, p: int)
    requires p >= 1
    ensures Flatten(Batches(list, p)) == list
    decreases |list|
  {
    if list != [] {
      var m := Min(p, |list|);
      BatchesRebuildList(list[m..], p);
      assert [list[..m]] + Batches(list[m..], p) == Batches(list, p);
      assert (Batches(list, p))[1..] == Batches(list[m..], p);
      assert list[..m] + list[m..] == list;
    }
  }

  /** Batch `k` is `list[k*p .. min(k*p + p, |list|)]`, and it starts inside the list. */
  lemma {:induction false} BatchesAreSlices(list: seq<string>, p: int)
    requires p >= 1
    ensures forall k :: 0 <= k < |Batches(list, p)| ==>
              k * p < |list| && Batches(list, p)[k] == list[k * p .. Min(k * p + p, |list|)]
    decreases |list|
  {
    if list != [] {
      var m := Min(p, |list|);
      var rest := list[m..];
      BatchesAreSlices(rest, p);
      var bs, rs := Batches(list, p), Batches(rest, p);
      assert bs == [list[..m]] + rs;
      forall k | 0 <= k < |bs|
        ensures k * p < |list| && bs[k] == list[k * p .. Min(k * p + p, |list|)]
      {
        if k > 0 {
          assert bs[k] == rs[k - 1];
          SliceOfRest(list, p, k - 1);
        }
      }
    }
  }

  /** A slice of the list after its first batch, shifted by one batch. */
  lemma SliceOfRest(list: seq<string>, p: int, j: nat)
    requires p >= 1 && p < |list|
    requires j * p < |list| - p
    ensures (j + 1) * p < |list|
    ensures list[p..][j * p .. Min(j * p + p, |list| - p)] == list[(j + 1) * p .. Min((j + 1) * p + p, |list|)]
  {
    MulSucc(j, p);
  }

  /** Each batch holds at least one and at most `p` URLs, and every batch but the last holds exactly `p`. */
  lemma BatchSizes(list: seq<string>, p: int)
    requires p >= 1
    ensures forall k :: 0 <= k < |Batches(list, p)| ==> 1 <= |Batches(list, p)[k]| <= p
    ensures forall k :: 0 <= k < |Batches(list, p)| - 1 ==> |Batches(list, p)[k]| == p
  {
    BatchesAreSlices(list, p);
    forall k | 0 <= k < |Batches(list, p)| - 1
      ensures |Batches(list, p)[k]| == p
    {
      MulSucc(k, p);
    }
  }

  /**
   * The batch counter ends at the ceiling of `|list| / p`: the least count
   * of batches whose capacity covers the list.
   */
  lemma {:induction false} BatchCount(list: seq<string>, p: int)
    requires p >= 1
    ensures var c := |Batches(list, p)|;
      c * p >= |list| && (list == [] <==> c == 0) && (c > 0 ==> (c - 1) * p < |list|)
    decreases |list|
  {
    if list != [] {
      var m := Min(p, |list|);
      var rest := list[m..];
      BatchCount(rest, p);
      var r := |Batches(rest, p)|;
      assert |Batches(list, p)| == r + 1;
      MulSucc(r, p);
      if r > 0 {
        MulSucc(r - 1, p);
        assert m == p;
      }
    }
  }

  /** One call of `scrape`: the URL and the index of the browser session it meets. */
  function Runner(parsers: Parsers, sessions: nat -> Session): (string, nat) -> Scraper.Visit
  {
    (u: string, k: nat) => Scraper.PageRun(u, parsers, sessions(k))
  }

  /** The visits of `urls` in order, the k-th one as `run(urls[k], offset + k)`. */
  function Visits(urls: seq<string>, offset: nat, run: (string, nat) -> Scraper.Visit)
    : (visits: seq<Scraper.Visit>)
    ensures |visits| == |urls|
    decreases |urls|
  {
    if urls == [] then []
    else [run(urls[0], offset)] + Visits(urls[1..], offset + 1, run)
  }

  lemma {:induction false} VisitsAt(urls: seq<string>, offset: nat, run: (string, nat) -> Scraper.Visit)
    ensures forall k :: 0 <= k < |urls| ==> Visits(urls, offset, run)[k] == run(urls[k], offset + k)
    decreases |urls|
  {
    if urls != [] {
      VisitsAt(urls[1..], offset + 1, run);
    }
  }

  /** The `j`-th visit of a run is `scrape(list[j])` meeting session `j`. */
  lemma VisitsInOrder(list: seq<string>, parsers: Parsers, sessions: nat -> Session)
    ensures var visits := Visits(list, 0, Runner(parsers, sessions));
      forall j :: 0 <= j < |list| ==> visits[j] == Scraper.PageRun(list[j], parsers, sessions(j))
  {
    VisitsAt(list, 0, Runner(parsers, sessions));
  }

  /** Visiting two lists one after the other is visiting their concatenation. */
  lemma {:induction false} VisitsAppend(a: seq<string>, b: seq<string>, offset: nat,
                                       run: (string, nat) -> Scraper.Visit)
    ensures Visits(a + b, offset, run) == Visits(a, offset, run) + Visits(b, offset + |a|, run)
    decreases |a|
  {
    if a != [] {
      assert (a + b)[1..] == a[1..] + b;
      VisitsAppend(a[1..], b, offset + 1, run);
    } else {
      assert a + b == b;
    }
  }

  /** Visiting one more URL appends its visit. */
  lemma VisitsSnoc(urls: seq<string>, u: string, offset: nat, run: (string, nat) -> Scraper.Visit)
    ensures Visits(urls + [u], offset, run) == Visits(urls, offset, run) + [run(u, offset + |urls|)]
  {
    VisitsAppend(urls, [u], offset, run);
    assert Visits([u], offset + |urls|, run) == [run(u, offset + |urls|)];
  }

  /** One `scrape(url)` call, meeting the browser session numbered `k`. */
  method ScrapeOne(url: string, k: nat, parsers: Parsers, sessions: nat -> Session) returns (visit: Scraper.Visit)
    ensures visit == Runner(parsers, sessions)(url, k)
  {
    var outcome, trace := Scraper.Scrape(url, parsers, sessions(k));
    visit := Scraper.Visit(outcome, trace);
  }

  /** `Promise.all(batch.map(scrape))`, run one URL after another: one visit per URL, in order. */
  method ScrapeBatch(batch: seq<string>, offset: nat, parsers: Parsers, sessions: nat -> Session)
    returns (data: seq<Scraper.Visit>)
    ensures data == Visits(batch, offset, Runner(parsers, sessions))
  {
    data := [];
    for k := 0 to |batch|
      invariant data == Visits(batch[..k], offset, Runner(parsers, sessions))
    {
      var visit := ScrapeOne(batch[k], offset + k, parsers, sessions);
      VisitsSnoc(batch[..k], batch[k], offset, Runner(parsers, sessions));
      assert batch[..k] + [batch[k]] == batch[..k + 1];
      data := data + [visit];
    }
    assert batch[..|batch|] == batch;
  }

  /** `batches` are the batches cut so far: the batches of the unread part complete them. */
  ghost predicate CutSoFar(batches: seq<seq<string>>, list: seq<string>, i: nat, p: int)
    requires p >= 1 || list == []
  {
    batches + Batches(Rest(list, i), p) == Batches(list, p)
  }

  /** The part of the list the loop has not reached. */
  function Rest(list: seq<string>, i: nat): seq<string>
  {
    if i < |list| then list[i..] else []
  }

  /**
   * The batching loop: `while (i < list.length)` scrape
   * `list.slice(i, i + partition)`, push its results, count the batch in
   * `c` and advance `i` by `partition`. `sessions(j)` is how the browser
   * behaves for `list[j]`; `batches` records the batches the loop cut.
   */
  method RunBatches(list: seq<string>, partition: int, parsers: Parsers, sessions: nat -> Session)
    returns (result: seq<Scraper.Visit>, c: nat, ghost batches: seq<seq<string>>)
    requires partition >= 1 || list == []
    ensures result == Visits(list, 0, Runner(parsers, sessions))
    ensures batches == Batches(list, partition) && c == |batches|
  {
    result, c, batches := [], 0, [];
    var i: nat := 0;
    assert Rest(list, i) == list;
    assert list[..Min(i, |list|)] == [];
    while i < |list|
      invariant c == |batches|
      invariant CutSoFar(batches, list, i, partition)
      invariant result == Visits(list[..Min(i, |list|)], 0, Runner(parsers, sessions))
      decreases |list| - i
    {
      var batch := list[i..Min(i + partition, |list|)];
      c := c + 1;
      var data := ScrapeBatch(batch, i, parsers, sessions);
      CutStep(batches, list, i, partition);
      VisitStep(list, i, partition, Runner(parsers, sessions), result);
      result := result + data;
      batches := batches + [batch];
      i := i + partition;
    }
    assert list[..Min(i, |list|)] == list;
    assert Rest(list, i) == [];
  }

  /**
   * The run: read the input, compose every entry's URL, keep the first
   * ten, and batch them with `Number(BATCH_SIZE) || 5`.
   */
  method Orchestrate(input: ReadOutcome, batchSize: NumberValue, parsers: Parsers, sessions: nat -> Session)
    returns (result: seq<Scraper.Visit>, c: nat, ghost batches: seq<seq<string>>)
    requires batchSize.NaN? || batchSize.value >= 0 || Capped(Urls(input, parsers)) == []
    ensures |result| == |Capped(Urls(input, parsers))|
    ensures forall j :: 0 <= j < |result| ==>
              result[j] == Scraper.PageRun(Capped(Urls(input, parsers))[j], parsers, sessions(j))
    ensures c == |Batches(Capped(Urls(input, parsers)), Partition(batchSize))|
    ensures batches == Batches(Capped(Urls(input, parsers)), Partition(batchSize))
  {
    var urls := Urls(input, parsers);
    var list := Capped(urls);
    var partition := Partition(batchSize);
    result, c, batches := RunBatches(list, partition, parsers, sessions);
    VisitsInOrder(list, parsers, sessions);
  }

  /** One turn of the batching loop cuts the next batch off the unread part of the list. */
  lemma CutStep(batches: seq<seq<string>>, list: seq<string>, i: nat, p: int)
    requires p >= 1 && i < |list|
    requires CutSoFar(batches, list, i, p)
    ensures CutSoFar(batches + [list[i..Min(i + p, |list|)]], list, i + p, p)
  {
    var batch, rest := list[i..Min(i + p, |list|)], Rest(list, i + p);
    assert Batches(Rest(list, i), p) == [batch] + Batches(rest, p) by {
      var m := Min(p, |list| - i);
      assert list[i..][..m] == batch;
      assert list[i..][m..] == rest;
    }
    assert (batches + [batch]) + Batches(rest, p) == batches + ([batch] + Batches(rest, p));
  }

  /** One turn of the batching loop appends the batch's visits to those of the part already read. */
  lemma VisitStep(list: seq<string>, i: nat, p: int, run: (string, nat) -> Scraper.Visit,
                  result: seq<Scraper.Visit>)
    requires p >= 1 && i < |list|
    requires result == Visits(list[..Min(i, |list|)], 0, run)
    ensures result + Visits(list[i..Min(i + p, |list|)], i, run) == Visits(list[..Min(i + p, |list|)], 0, run)
  {
    var e := Min(i + p, |list|);
    VisitsAppend(list[..i], list[i..e], 0, run);
    assert list[..i] + list[i..e] == list[..e];
  }

  /** A failed read leaves no URL, hence no batch and no result. */
  lemma ReadFailureScrapesNothing(parsers: Parsers, p: int)
    requires p >= 1
    ensures Capped(Urls(ReadRejected, parsers)) == []
    ensures Batches(Capped(Urls(ReadRejected, parsers)), p) == []
  {
  }
}
