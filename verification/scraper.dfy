/**
 * src/scraper.ts: the per-page pipeline. Its lifecycle (decompose the URL,
 * launch, open/navigate/scroll inside one try block, close on failure) is
 * a method that records the browser actions it issues; the tolerant field
 * reads and the social-link selection and merge are functions over the
 * rendered document.
 */
module Scraper {
  import opened Wrappers
  import opened Text
  import opened Url
  import opened Browser

  // Social platforms.

  /** The `Platforms` enum, whose values are the lower-case names. */
  datatype Platform = Facebook | Instagram | Pinterest | Tiktok | Twitter | Youtube

  function Name(p: Platform): string
  {
    match p
    case Facebook => "facebook"
    case Instagram => "instagram"
    case Pinterest => "pinterest"
    case Tiktok => "tiktok"
    case Twitter => "twitter"
    case Youtube => "youtube"
  }

  /** `Object.values(Platforms)`, in declaration order. */
  const Platforms: seq<Platform> := [Facebook, Instagram, Pinterest, Tiktok, Twitter, Youtube]

  lemma PlatformListed(p: Platform)
    ensures p in Platforms
  {
    match p
    case Facebook => assert Platforms[0] == p;
    case Instagram => assert Platforms[1] == p;
    case Pinterest => assert Platforms[2] == p;
    case Tiktok => assert Platforms[3] == p;
    case Twitter => assert Platforms[4] == p;
    case Youtube => assert Platforms[5] == p;
  }

  // Social-link selection.

  /** `A[href*="{fragment}" i]`: the anchor's href attribute contains the fragment, up to case. */
  predicate HrefContains(a: Anchor, fragment: string)
  {
    a.hrefAttr.Some? && ContainsIgnoringCase(a.hrefAttr.value, fragment)
  }

  /** Anchor `k` is the first, in document order, whose href attribute contains `fragment`. */
  predicate FirstWithHref(anchors: seq<Anchor>, fragment: string, k: int)
  {
    && 0 <= k < |anchors| && HrefContains(anchors[k], fragment)
    && forall j :: 0 <= j < k ==> !HrefContains(anchors[j], fragment)
  }

  predicate NoneWithHref(anchors: seq<Anchor>, fragment: string)
  {
    forall k :: 0 <= k < |anchors| ==> !HrefContains(anchors[k], fragment)
  }

  /** `{p}.com/{sld}`: a link to the site's own profile on the platform. */
  function ProfileFragment(p: Platform, sld: string): string
  {
    Name(p) + ".com/" + sld
  }

  /** `{p}.com`: any link to the platform. */
  function PlatformFragment(p: Platform): string
  {
    Name(p) + ".com"
  }

  /** An anchor that links to the site's profile also links to the platform. */
  lemma ProfileLinkIsPlatformLink(a: Anchor, p: Platform, sld: string)
    requires HrefContains(a, ProfileFragment(p, sld))
    ensures HrefContains(a, PlatformFragment(p))
  {
    assert ProfileFragment(p, sld) == PlatformFragment(p) + ("/" + sld);
    ContainsPrefixIgnoringCase(a.hrefAttr.value, PlatformFragment(p), "/" + sld);
  }

  /**
   * The handle for platform `p`: the resolved href of the first anchor
   * linking to `{p}.com/{sld}`, failing that of the first anchor linking
   * to `{p}.com`, failing that the empty string.
   */
  function Handle(anchors: seq<Anchor>, p: Platform, sld: string): (r: string)
    ensures forall k :: FirstWithHref(anchors, ProfileFragment(p, sld), k) ==> r == anchors[k].href
    ensures NoneWithHref(anchors, ProfileFragment(p, sld)) ==>
              forall k :: FirstWithHref(anchors, PlatformFragment(p), k) ==> r == anchors[k].href
    ensures NoneWithHref(anchors, PlatformFragment(p)) ==> r == ""
  {
    var profile, platform := ProfileFragment(p, sld), PlatformFragment(p);
    match QuerySelector(anchors, a => HrefContains(a, profile))
    case Some(k) =>
      ProfileLinkIsPlatformLink(anchors[k], p, sld);
      anchors[k].href
    case None =>
      match QuerySelector(anchors, a => HrefContains(a, platform))
      case Some(k) => anchors[k].href
      case None => ""
  }

  /** The one-key objects `{ [p]: lookup(p) }` that the per-platform lookups produce, in order. */
  function Parts(ps: seq<Platform>, lookup: Platform -> string): (parts: seq<map<Platform, string>>)
    ensures |parts| == |ps|
  {
    seq(|ps|, i requires 0 <= i < |ps| => map[ps[i] := lookup(ps[i])])
  }

  /** `Object.assign(target, ...sources)`: the sources' keys are copied in order, later ones overwriting. */
  function Assign(target: map<Platform, string>, sources: seq<map<Platform, string>>): map<Platform, string>
    decreases |sources|
  {
    if sources == [] then target else Assign(target + sources[0], sources[1..])
  }

  /** Adding the first platform's entry, then the rest's, adds the whole list's entries. */
  lemma ConsEntries(target: map<Platform, string>, ps: seq<Platform>, lookup: Platform -> string)
    requires ps != []
    ensures target + map[ps[0] := lookup(ps[0])] + (map p | p in ps[1..] :: lookup(p))
         == target + (map p | p in ps :: lookup(p))
  {
    var m1 := target + map[ps[0] := lookup(ps[0])] + (map p | p in ps[1..] :: lookup(p));
    var m2 := target + (map p | p in ps :: lookup(p));
    assert forall p :: p in ps <==> p == ps[0] || p in ps[1..];
    assert m1.Keys == m2.Keys;
    assert forall k :: k in m1 ==> m1[k] == m2[k];
  }

  /** Folding the one-key objects into a target adds each listed platform's own lookup. */
  lemma {:induction false} AssignParts(target: map<Platform, string>, ps: seq<Platform>,
                                      lookup: Platform -> string)
    ensures Assign(target, Parts(ps, lookup)) == target + (map p | p in ps :: lookup(p))
    decreases |ps|
  {
    var parts := Parts(ps, lookup);
    if ps == [] {
      assert (map p | p in ps :: lookup(p)) == map[];
    } else {
      assert parts[1..] == Parts(ps[1..], lookup);
      AssignParts(target + parts[0], ps[1..], lookup);
      ConsEntries(target, ps, lookup);
    }
  }

  /**
   * `links`: the six lookups merged with `Object.assign(first, ...rest)`.
   * Every platform is a key, and its value is that platform's own handle.
   */
  function Links(anchors: seq<Anchor>, sld: string): (r: map<Platform, string>)
    ensures forall p :: p in r
    ensures forall p :: r[p] == Handle(anchors, p, sld)
  {
    var parts := Parts(Platforms, Lookup(anchors, sld));
    MergeParts(Lookup(anchors, sld));
    Assign(parts[0], parts[1..])
  }

  /** The per-platform lookup of `links`. */
  function Lookup(anchors: seq<Anchor>, sld: string): Platform -> string
  {
    p => Handle(anchors, p, sld)
  }

  /** `Object.assign(first, ...rest)` over the six one-key objects has every platform's own lookup. */
  lemma MergeParts(lookup: Platform -> string)
    ensures var parts := Parts(Platforms, lookup);
      |parts| == 6 &&
      forall p :: p in Assign(parts[0], parts[1..]) && Assign(parts[0], parts[1..])[p] == lookup(p)
  {
    var parts := Parts(Platforms, lookup);
    var merged := Assign(parts[0], parts[1..]);
    var all := map p | p in Platforms :: lookup(p);
    assert merged == all by {
      assert Assign(map[], parts) == Assign(map[] + parts[0], parts[1..]);
      assert map[] + parts[0] == parts[0];
      AssignParts(map[], Platforms, lookup);
      assert map[] + all == all;
    }
    forall p: Platform
      ensures p in merged && merged[p] == lookup(p)
    {
      PlatformListed(p);
    }
  }

  // Tolerant field reads.

  /**
   * `page.evaluate(...).catch(() => '')` around a trimmed read: the found
   * value with surrounding white space cut off, or `''` when the element is
   * missing (the query throws).
   */
  function ReadOrEmpty(found: Option<string>): (r: string)
    ensures found.None? ==> r == ""
    ensures found.Some? ==> TrimmedFrom(r, found.value)
  {
    match found
    case None => ""
    case Some(v) => Trim(v)
  }

  /** `META[name="{n}" i], META[property*="{n}" i]`. */
  predicate MetaMatches(m: Meta, n: string)
  {
    || (m.name.Some? && EqualsIgnoringCase(m.name.value, n))
    || (m.property.Some? && ContainsIgnoringCase(m.property.value, n))
  }

  predicate FirstMeta(metas: seq<Meta>, n: string, k: int)
  {
    0 <= k < |metas| && MetaMatches(metas[k], n) && forall j :: 0 <= j < k ==> !MetaMatches(metas[j], n)
  }

  /** The trimmed content of the first matching `<meta>`, or `''` when none matches. */
  function MetaContent(metas: seq<Meta>, n: string): (r: string)
    ensures (forall k :: 0 <= k < |metas| ==> !MetaMatches(metas[k], n)) ==> r == ""
    ensures forall k :: FirstMeta(metas, n, k) ==> TrimmedFrom(r, metas[k].content)
  {
    match QuerySelector(metas, m => MetaMatches(m, n))
    case None => ""
    case Some(k) =>
      assert forall k' :: FirstMeta(metas, n, k') ==> k' == k;
      ReadOrEmpty(Some(metas[k].content))
  }

  /** The object the scraper logs for a loaded page. */
  datatype PageRecord = PageRecord(domain: JsValue, url: string, lang: string, title: string,
                                   description: string, keywords: string,
                                   links: map<Platform, string>)

  /** All reads against the loaded document; `sld` is the second-level domain as text. */
  function Extract(domain: JsValue, url: string, doc: Document, sld: string): PageRecord
  {
    PageRecord(domain, url, ReadOrEmpty(doc.html), ReadOrEmpty(doc.title),
               MetaContent(doc.metas, "description"), MetaContent(doc.metas, "keywords"),
               Links(doc.anchors, sld))
  }

  /**
   * A missing element empties its own field and nothing else: each read
   * fails on its own.
   */
  lemma MissingElementsAreIsolated(domain: JsValue, url: string, doc: Document, sld: string)
    ensures var full := Extract(domain, url, doc, sld);
      && Extract(domain, url, doc.(title := None), sld) == full.(title := "")
      && Extract(domain, url, doc.(html := None), sld) == full.(lang := "")
      && Extract(domain, url, doc.(metas := []), sld) == full.(description := "", keywords := "")
      && forall p :: Extract(domain, url, doc.(anchors := []), sld).links[p] == ""
  {
  }

  // The lifecycle.

  /** How the default export ended for one URL. */
  datatype Outcome =
    | InvalidUrl                 // decompose gave nothing: return before any browser action
    | LaunchFailed               // the launch threw: return
    | LoadFailed                 // open, navigate or scroll threw: close, then return
    | Scraped(record: PageRecord)  // every read done and the record logged

  /** One call of the default export: its outcome and the browser actions it issued, in order. */
  datatype Visit = Visit(outcome: Outcome, trace: seq<Action>)

  /** Open the tab, navigate, measure, then the inline scroll loop. */
  function LoadPlan(url: string, n: int): seq<Action>
  {
    [NewPage, Goto(url)] + ScrollPlan(n)
  }

  /** The whole run of the default export on `url` for a session that behaves as `s`. */
  function PageRun(url: string, parsers: Parsers, s: Session): Visit
  {
    match Decompose(url, parsers)
    case None => Visit(InvalidUrl, [])
    case Some(data) =>
      if !s.launches then Visit(LaunchFailed, [Launch])
      else
        var load := Perform(LoadPlan(url, s.steps), s.failAt);
        if !load.completed then Visit(LoadFailed, [Launch] + load.issued + [Close])
        else Visit(Scraped(Extract(data["domain"], url, s.doc, Render(data["sld"]))),
                   [Launch] + load.issued)
  }

  /**
   * The body of the `try` that opens the page: newPage, goto, the height
   * measurement and `i = 0; while (i <= n) { scroll; wait; i++ }`. It stops
   * at the first action that throws.
   */
  method Load(url: string, s: Session) returns (issued: seq<Action>, completed: bool)
    ensures Attempt(issued, completed) == Perform(LoadPlan(url, s.steps), s.failAt)
  {
    var failAt := s.failAt;
    var head := [NewPage, Goto(url), MeasureHeight];
    var tail := ScrollPairs(StepCount(s.steps));
    assert LoadPlan(url, s.steps) == head + tail;
    issued := [NewPage];
    if failAt == Some(0) {
      PerformInHead(head, tail, 0);
      return issued, false;
    }
    issued := issued + [Goto(url)];
    if failAt == Some(1) {
      PerformInHead(head, tail, 1);
      return issued, false;
    }
    issued := issued + [MeasureHeight];
    if failAt == Some(2) {
      PerformInHead(head, tail, 2);
      return issued, false;
    }
    issued, completed := ScrollLoop(head, s.steps, failAt);
  }

  /**
   * The inline scroll loop of the load step, `let i = 0; while (i <= n)
   * { scroll; wait 100 ms; i++ }`, after the actions in `head` have been
   * issued without throwing.
   */
  method ScrollLoop(head: seq<Action>, n: int, failAt: Option<nat>) returns (issued: seq<Action>, completed: bool)
    requires failAt.None? || failAt.value >= |head|
    ensures Attempt(issued, completed) == Perform(head + ScrollPairs(StepCount(n)), failAt)
  {
    issued := head;
    var i := 0;
    while i <= n
      invariant 0 <= i <= StepCount(n)
      invariant issued == head + ScrollPairs(i)
      invariant failAt.None? || failAt.value >= |issued|
    {
      PairsCut(head, StepCount(n), i);
      issued := issued + [ScrollBy];
      if failAt == Some(|issued| - 1) {
        return issued, false;
      }
      issued := issued + [Wait(SettleMs)];
      if failAt == Some(|issued| - 1) {
        return issued, false;
      }
      i := i + 1;
    }
    ScrollPairsShape(i);
    completed := true;
  }

  /**
   * The default export of src/scraper.ts (its `parse` import read as
   * `decompose`). The close after a successful scrape is commented out in
   * the source, so a scraped page leaves its browser open.
   */
  method Scrape(url: string, parsers: Parsers, s: Session) returns (outcome: Outcome, trace: seq<Action>)
    ensures Visit(outcome, trace) == PageRun(url, parsers, s)
  {
    var urlData := Decompose(url, parsers);
    if urlData.None? {
      return InvalidUrl, [];
    }
    var domain, sld := urlData.value["domain"], urlData.value["sld"];

    trace := [Launch];
    if !s.launches {
      return LaunchFailed, trace;
    }

    var issued, completed := Load(url, s);
    trace := trace + issued;
    if !completed {
      trace := trace + [Close];
      return LoadFailed, trace;
    }

    var lang := ReadOrEmpty(s.doc.html);
    var title := ReadOrEmpty(s.doc.title);
    var description := MetaContent(s.doc.metas, "description");
    var keywords := MetaContent(s.doc.metas, "keywords");
    var links := Links(s.doc.anchors, Render(sld));
    outcome := Scraped(PageRecord(domain, url, lang, title, description, keywords, links));
  }

  // What the lifecycle guarantees.

  /** No URL data: the run ends before any browser action, and only then. */
  lemma InvalidUrlLaunchesNothing(url: string, parsers: Parsers, s: Session)
    ensures PageRun(url, parsers, s).outcome == InvalidUrl <==> Decompose(url, parsers).None?
    ensures PageRun(url, parsers, s).trace == [] <==> Decompose(url, parsers).None?
  {
  }

  /** A launch failure returns at once: no page is opened and nothing is closed. */
  lemma LaunchFailureOpensNothing(url: string, parsers: Parsers, s: Session)
    requires Decompose(url, parsers).Some? && !s.launches
    ensures PageRun(url, parsers, s) == Visit(LaunchFailed, [Launch])
    ensures Count(PageRun(url, parsers, s).trace, NewPage) == 0
    ensures Count(PageRun(url, parsers, s).trace, Close) == 0
  {
    assert [Launch][1..] == [];
  }

  /**
   * A load-phase action that throws (newPage, goto, the measurement, a
   * scroll or a wait) ends the run as a load failure: the actions up to the
   * throwing one, then exactly one close, as the last action.
   */
  lemma LoadFailureClosesOnce(url: string, parsers: Parsers, s: Session)
    requires Decompose(url, parsers).Some? && s.launches
    requires s.failAt.Some? && s.failAt.value < |LoadPlan(url, s.steps)|
    ensures PageRun(url, parsers, s).outcome == LoadFailed
    ensures PageRun(url, parsers, s).trace == [Launch] + LoadPlan(url, s.steps)[..s.failAt.value + 1] + [Close]
    ensures var t := PageRun(url, parsers, s).trace;
      && |t| >= 3 && t[0] == Launch && t[1] == NewPage && t[|t| - 1] == Close
      && Count(t, Close) == 1 && Count(t, Launch) == 1
  {
    var plan := LoadPlan(url, s.steps);
    assert PageRun(url, parsers, s).trace == [Launch] + plan[..s.failAt.value + 1] + [Close];
    NoLifecycleActionsInPlan(url, s.steps);
    ClosedAfterCut(plan, s.failAt.value);
  }

  /**
   * Launching, issuing a cut of a plan that starts with newPage and never
   * launches or closes, then closing: one launch, one close, in that order.
   */
  lemma ClosedAfterCut(plan: seq<Action>, f: nat)
    requires f < |plan| && plan[0] == NewPage
    requires Count(plan, Close) == 0 && Count(plan, Launch) == 0
    ensures var t := [Launch] + plan[..f + 1] + [Close];
      && |t| >= 3 && t[0] == Launch && t[1] == NewPage && t[|t| - 1] == Close
      && Count(t, Close) == 1 && Count(t, Launch) == 1
  {
    var cut := plan[..f + 1];
    CountPrefix(plan, f + 1, Close);
    CountPrefix(plan, f + 1, Launch);
    CountAppend([Launch] + cut, [Close], Close);
    CountAppend([Launch], cut, Close);
    CountAppend([Launch] + cut, [Close], Launch);
    CountAppend([Launch], cut, Launch);
  }

  /** A load failure happens only when a load-phase action throws after a successful launch. */
  lemma LoadFailedOnlyOnThrow(url: string, parsers: Parsers, s: Session)
    requires PageRun(url, parsers, s).outcome == LoadFailed
    ensures Decompose(url, parsers).Some? && s.launches
    ensures s.failAt.Some? && s.failAt.value < |LoadPlan(url, s.steps)|
  {
  }

  /**
   * A scraped page issued the whole plan: one launch, the navigation, one
   * measurement, `n + 1` scroll/wait pairs for a measured `n >= 0`, and no
   * close.
   */
  lemma SuccessLeavesBrowserOpen(url: string, parsers: Parsers, s: Session)
    requires Decompose(url, parsers).Some? && s.launches
    requires s.failAt.None? || s.failAt.value >= |LoadPlan(url, s.steps)|
    ensures PageRun(url, parsers, s).outcome.Scraped?
    ensures var t := PageRun(url, parsers, s).trace;
      && t == [Launch, NewPage, Goto(url)] + ScrollPlan(s.steps)
      && Count(t, Close) == 0 && Count(t, Launch) == 1
      && Count(t, ScrollBy) == StepCount(s.steps)
      && Count(t, Wait(SettleMs)) == StepCount(s.steps)
  {
    assert PageRun(url, parsers, s).trace == [Launch] + LoadPlan(url, s.steps);
    FullPlanCounts(url, s.steps);
  }

  /** What a launch followed by the whole load plan contains. */
  lemma FullPlanCounts(url: string, n: int)
    ensures var t := [Launch] + LoadPlan(url, n);
      && t == [Launch, NewPage, Goto(url)] + ScrollPlan(n)
      && Count(t, Close) == 0 && Count(t, Launch) == 1
      && Count(t, ScrollBy) == StepCount(n)
      && Count(t, Wait(SettleMs)) == StepCount(n)
  {
    var plan := LoadPlan(url, n);
    NoLifecycleActionsInPlan(url, n);
    ScrollPlanShape(n);
    CountAppend([Launch], plan, Close);
    CountAppend([Launch], plan, Launch);
    CountAppend([Launch], plan, ScrollBy);
    CountAppend([Launch], plan, Wait(SettleMs));
    CountAppend([NewPage, Goto(url)], ScrollPlan(n), ScrollBy);
    CountAppend([NewPage, Goto(url)], ScrollPlan(n), Wait(SettleMs));
    CountAbsent([Launch], ScrollBy);
    CountAbsent([Launch], Wait(SettleMs));
    CountAbsent([NewPage, Goto(url)], ScrollBy);
    CountAbsent([NewPage, Goto(url)], Wait(SettleMs));
    assert [Launch][1..] == [];
  }

  /** The load plan neither launches nor closes a browser. */
  lemma NoLifecycleActionsInPlan(url: string, n: int)
    ensures Count(LoadPlan(url, n), Close) == 0 && Count(LoadPlan(url, n), Launch) == 0
  {
    ScrollPairsShape(StepCount(n));
    var head := [NewPage, Goto(url), MeasureHeight];
    assert LoadPlan(url, n) == head + ScrollPairs(StepCount(n));
    CountAppend(head, ScrollPairs(StepCount(n)), Close);
    CountAppend(head, ScrollPairs(StepCount(n)), Launch);
    CountAbsent(head, Close);
    CountAbsent(head, Launch);
  }
}
