/**
 * What a place job makes of a review collection (gmaps/place.go): the run itself, the second merge that
 * counts the inline reviews in, and the report settled against the union.
 */
module PlaceReviews {
  import opened Common
  import opened ReviewSets
  import opened ReviewIdentity
  import opened ReviewRuns
  import opened ReviewCollection

  // ---------------------------------------------------------------------------------------------
  // What a place is told
  // ---------------------------------------------------------------------------------------------

  datatype Found = Found(rows: seq<Review>, report: ReportView)

  /** Nothing to collect: the listing reports no reviews and shows none. */
  const NOTHING := Found([], ReportView(0, false, 0, false, 0, NoReviews, NoStage, NoDetail, [], 0, 0, 0, 0, 0, 0))

  function FoundBy(g: Given, showsReviews: bool): Found
    requires Ready(g)
  {
    if g.reported > 0 || showsReviews then Found(Rows(g.cap, Collect(g)), ReportOf(g.cap, g.reported, Collect(g)))
    else NOTHING
  }

  /** The report once the inline reviews are counted in. */
  function Settled(inline: seq<Review>, found: Found): ReportView {
    Finalized(found.report.(withoutID := |IdLess(found.rows)| + |IdLess(inline)|), |IdSet(inline) + IdSet(found.rows)|)
  }

  // ---------------------------------------------------------------------------------------------
  // The second merge
  // ---------------------------------------------------------------------------------------------

  lemma {:induction false} SubsetSize<T>(small: set<T>, big: set<T>)
    requires small <= big
    ensures |small| <= |big|
  {
    if x: T :| x in small {
      SubsetSize(small - {x}, big - {x});
    }
  }

  /** Merging rows no more numerous than the cap refuses none of them and changes none. */
  lemma SecondMergeRefusesNone(inlineIds: set<Text>, rows: seq<Review>, n: nat, cap: nat)
    requires [] !in inlineIds && RowsCounted(rows, n, cap)
    ensures HandedOn(inlineIds, rows, cap) == Beyond(inlineIds, rows)
    ensures IdSet(RowsOf(inlineIds, rows, cap)) == IdSet(rows) - inlineIds
  {
    RowsOfIsExact(inlineIds, rows, cap);
    NewIdsExact(inlineIds, rows);
    SubsetSize(IdSet(rows) - inlineIds, IdSet(rows));
    BelowCapHoldsEverything(inlineIds, rows, cap, RowsOf(inlineIds, rows, cap));
    RowsOfNoRepeats(inlineIds, rows, cap, RowsOf(inlineIds, rows, cap));
    BeyondInOrder(inlineIds, rows, n);
  }

  lemma InlineIdsAreNotEmpty(inline: seq<Review>)
    ensures InlineIndex(inline).Keys == IdSet(inline) && [] !in IdSet(inline)
  {
    InlineIndexIsExact(inline);
  }

  lemma BeyondSnoc(inlineIds: set<Text>, t: seq<Review>, r: Review)
    requires [] !in inlineIds
    ensures Beyond(inlineIds, t + [r]) == if r.id !in inlineIds then Beyond(inlineIds, t) + [r] else Beyond(inlineIds, t)
    ensures IdLess(t + [r]) == if r.id == [] then IdLess(t) + [r] else IdLess(t)
    ensures IdSet(t + [r]) == if r.id == [] then IdSet(t) else IdSet(t) + {r.id}
  {
    SnocStream(t, r);
    IdSetConcat(t, [r]);
    assert IdSet([r]) == if r.id == [] then {} else {r.id};
  }

  lemma {:induction false} BeyondIds(inlineIds: set<Text>, s: seq<Review>)
    requires [] !in inlineIds
    ensures IdSet(Beyond(inlineIds, s)) == IdSet(s) - inlineIds
    ensures IdLess(Beyond(inlineIds, s)) == IdLess(s)
  {
    if s != [] {
      var t, r := s[..|s| - 1], s[|s| - 1];
      BeyondIds(inlineIds, t);
      assert s == t + [r];
      OneMoreBeyond(inlineIds, t, r);
    }
  }

  lemma OneMoreBeyond(inlineIds: set<Text>, t: seq<Review>, r: Review)
    requires [] !in inlineIds
    requires IdSet(Beyond(inlineIds, t)) == IdSet(t) - inlineIds && IdLess(Beyond(inlineIds, t)) == IdLess(t)
    ensures IdSet(Beyond(inlineIds, t + [r])) == IdSet(t + [r]) - inlineIds
    ensures IdLess(Beyond(inlineIds, t + [r])) == IdLess(t + [r])
  {
    BeyondSnoc(inlineIds, t, r);
    if r.id !in inlineIds {
      BeyondSnoc({}, Beyond(inlineIds, t), r);
    }
    OneMoreOutside(IdSet(t), inlineIds, r.id);
  }

  lemma OneMoreOutside<T>(ids: set<T>, known: set<T>, id: T)
    ensures id in known ==> ids + {id} - known == ids - known
    ensures id !in known ==> ids + {id} - known == (ids - known) + {id}
  {
  }

  /** Merge the collected rows with the inline reviews, once. */
  method MergeInline(inline: array<Review>, rows: seq<Review>, ghost n: nat, maxReviews: nat)
    returns (extended: seq<Review>, distinct: nat, withoutID: nat)
    requires maxReviews > 0 && RowsCounted(rows, n, maxReviews)
    modifies inline
    ensures extended == Beyond(IdSet(old(inline[..])), rows)
    ensures InlineEnriched(old(inline[..]), inline[..], rows)
    ensures distinct == |IdSet(old(inline[..])) + IdSet(rows)|
    ensures withoutID == |IdLess(rows)| + |IdLess(old(inline[..]))|
  {
    var merged := new ReviewSet(inline, maxReviews);
    for i := 0 to |rows|
      invariant merged.Valid() && merged.stream == rows[..i]
    {
      var _ := merged.Add(rows[i]);
      assert rows[..i + 1] == rows[..i] + [rows[i]];
    }
    assert rows[..|rows|] == rows;
    MergedIsBeyond(merged, rows, n);
    merged.InlineIsEnriched();
    extended := merged.Extended();
    distinct := merged.Distinct();
    withoutID := merged.WithoutID();
  }

  lemma MergedIsBeyond(merged: ReviewSet, rows: seq<Review>, n: nat)
    requires merged.Valid() && merged.stream == rows && RowsCounted(rows, n, merged.cap)
    ensures merged.Extended() == Beyond(IdSet(merged.inline), rows)
    ensures IdSet(merged.inline) + IdSet(merged.rows) == IdSet(merged.inline) + IdSet(rows)
    ensures merged.orphans == IdLess(rows)
  {
    InlineIdsAreNotEmpty(merged.inline);
    SecondMergeRefusesNone(IdSet(merged.inline), rows, n, merged.cap);
  }

  // ---------------------------------------------------------------------------------------------
  // The whole path of one place
  // ---------------------------------------------------------------------------------------------

  method CollectReviews(c: Collector, reported: int, showsReviews: bool, browser: Route?, http: Route?,
                        dom: Option<seq<Review>>)
    returns (rows: seq<Review>, report: Report)
    requires c.maxReviews > 0 && Fresh(LineOf(browser)) && Fresh(LineOf(http)) && (browser == null || browser != http)
    modifies c, browser, http
    ensures fresh(report)
    ensures Found(rows, report.View())
      == FoundBy(Begins(c, reported, old(c.Now()), old(LineOf(browser)), old(LineOf(http)), dom), showsReviews)
  {
    if reported > 0 || showsReviews {
      ghost var r;
      rows, report, r := c.Run(reported, browser, http, dom);
    } else {
      report := new Report(0);
      report.stopReason := NoReviews;
      rows := [];
    }
  }

  /** What the run of a place is given. */
  function Begins(c: Collector, reported: int, now: Clock, browser: Option<Line>, http: Option<Line>,
                  dom: Option<seq<Review>>): Given
    requires c.maxReviews > 0
  {
    Given(c.outside, c.maxReviews, reported, ReviewPageBudget(reported, c.maxReviews), browser, http, dom, now)
  }

  /** Collect, count the inline reviews in, and settle the report. */
  method PlaceCollection(c: Collector, inline: array<Review>, reported: int, showsReviews: bool,
                         browser: Route?, http: Route?, dom: Option<seq<Review>>)
    returns (extended: seq<Review>, report: Report)
    requires c.maxReviews > 0 && Fresh(LineOf(browser)) && Fresh(LineOf(http)) && (browser == null || browser != http)
    modifies c, browser, http, inline
    ensures fresh(report)
    ensures var found := FoundBy(Begins(c, reported, old(c.Now()), old(LineOf(browser)), old(LineOf(http)), dom), showsReviews);
      && report.View() == Settled(old(inline[..]), found)
      && extended == Beyond(IdSet(old(inline[..])), found.rows)
      && InlineEnriched(old(inline[..]), inline[..], found.rows)
    ensures report.complete ==> report.stopReason.Done? || report.stopReason.NoReviews?
  {
    ghost var g := Begins(c, reported, c.Now(), LineOf(browser), LineOf(http), dom);
    var rows;
    rows, report := CollectReviews(c, reported, showsReviews, browser, http, dom);
    FoundAddsUp(g, showsReviews);
    SettlingKeepsTheReason(inline[..], FoundBy(g, showsReviews));
    extended := Settle(inline, rows, report, c.maxReviews);
  }

  /** The rows found are counted by the report's own numbers. */
  lemma FoundAddsUp(g: Given, showsReviews: bool)
    requires Ready(g)
    ensures var found := FoundBy(g, showsReviews);
      RowsCounted(found.rows, found.report.rpcReviews + found.report.domReviews, g.cap)
  {
    if g.reported > 0 || showsReviews {
      ReviewsAddUp(g);
    } else {
      NothingToCount(g.cap);
    }
  }

  lemma NothingToCount(cap: nat)
    ensures RowsCounted([], 0, cap)
  {
  }

  /** Count the inline reviews in and settle the report. */
  method Settle(inline: array<Review>, rows: seq<Review>, report: Report, maxReviews: nat) returns (extended: seq<Review>)
    requires maxReviews > 0 && RowsCounted(rows, report.rpcReviews + report.domReviews, maxReviews)
    modifies inline, report
    ensures report.View() == Settled(old(inline[..]), Found(rows, old(report.View())))
    ensures extended == Beyond(IdSet(old(inline[..])), rows)
    ensures InlineEnriched(old(inline[..]), inline[..], rows)
  {
    var distinct, withoutID;
    extended, distinct, withoutID := MergeInline(inline, rows, report.rpcReviews + report.domReviews, maxReviews);
    report.withoutID := withoutID;
    report.Finalize(distinct);
  }

  // ---------------------------------------------------------------------------------------------
  // What the settled report promises
  // ---------------------------------------------------------------------------------------------

  /**
   * `Complete` is sound from end to end: of a place that reports or shows reviews it takes a run told as
   * exhausted, a count that is known and positive, and as many distinct ids as it; and then the listing was
   * read through, the page budget was used up, or the collected ids alone reach the count. Any other settled
   * stop reason than done is never complete, and a run whose own ids reach the count stays complete whatever
   * the inline reviews add. A place that reports and shows none is complete when it has none.
   */
  lemma CompleteIsEarned(g: Given, showsReviews: bool, inline: seq<Review>)
    requires Ready(g)
    ensures var found := FoundBy(g, showsReviews);
      var v, r := Settled(inline, found), Collect(g);
      if g.reported > 0 || showsReviews then
        && (v.complete <==> found.report.stopReason.Exhausted? && g.reported > 0 && v.collected >= g.reported)
        && (v.complete <==> v.stopReason.Done?) && v.reported == g.reported && v.stages == r.stages
        && (v.complete ==> ReadThrough(r.last) || OutOfPages(r.last) || Held(g.cap, r.stream) >= g.reported)
        && (found.report.stopReason.Exhausted? && Held(g.cap, r.stream) >= g.reported ==> v.complete)
      else v.stopReason.NoReviews? && (v.complete <==> v.collected == 0) && v.stages == [] && v.reported == 0 && found.rows == []
  {
    ReportTells(g);
    ReviewsAddUp(g);
    var found := FoundBy(g, showsReviews);
    OwnIdsCount(inline, found.rows);
    HeldIsCounted(g);
  }

  /**
   * Exactly which runs of a place with reviews are done: those whose union reaches a known count and whose
   * requests came to an end of the listing or of the page budget, unless a scroll after that ran out of time
   * or filled the set; and those that were refused, failed or could not be read, when the scroll in its time
   * and below the cap reached the count by itself. Requests that filled the set or ran out of time are never done.
   */
  lemma DoneExactlyWhen(g: Given, showsReviews: bool, inline: seq<Review>)
    requires Ready(g) && (g.reported > 0 || showsReviews)
    ensures var v, r := Settled(inline, FoundBy(g, showsReviews)), Collect(g);
      v.stopReason.Done? <==> g.reported > 0 && v.collected >= g.reported && EndedExhausted(g, r)
  {
    NeverToldDone(g);
    DoneIsSettled(inline, FoundBy(g, showsReviews));
    if g.reported > 0 {
      EndsExhaustedExactlyWhen(g);
    }
  }

  /** A run is not told as done before it is settled. */
  lemma NeverToldDone(g: Given)
    requires Ready(g)
    ensures var report, r := ReportOf(g.cap, g.reported, Collect(g)), Collect(g);
      && !report.stopReason.Done?
      && (report.stopReason.Exhausted? <==> g.reported > 0 && r.outcome.reason.Exhausted?)
  {
    ReportTells(g);
  }

  lemma DoneIsSettled(inline: seq<Review>, found: Found)
    requires !found.report.stopReason.Done?
    ensures var v := Settled(inline, found);
      v.stopReason.Done? <==>
        found.report.stopReason.Exhausted? && found.report.reportedKnown && v.collected >= found.report.reported
  {
  }

  /**
   * And when done means that the listing was read through: if and only if pagination ended there. Otherwise
   * it ended on its page budget, with a whole budget of pages read, or it was refused, failed or could not
   * be read and the page's own list reached the count. So done with fewer pages than the budget and no scroll
   * is done with the listing read through.
   */
  lemma DoneReadThroughExactlyWhen(g: Given, showsReviews: bool, inline: seq<Review>)
    requires Ready(g) && (g.reported > 0 || showsReviews)
    ensures var v, r := Settled(inline, FoundBy(g, showsReviews)), Collect(g);
      v.stopReason.Done? ==>
        && (WholeChain(r.requests.progress.chain) <==> ReadThrough(r.last))
        && (!WholeChain(r.requests.progress.chain) <==>
              || (OutOfPages(r.last) && v.rpcPages >= g.budget)
              || ((r.last.reason.Blocked? || r.last.reason.Failed? || r.last.reason.ParseError?)
                  && Dom in v.stages && v.rpcReviews < g.reported <= v.rpcReviews + v.domReviews))
        && (v.rpcPages < g.budget && Dom !in v.stages ==> WholeChain(r.requests.progress.chain))
  {
    DoneExactlyWhen(g, showsReviews, inline);
    CleanEndExactlyWhenWhole(g);
    RequestsEndTheRun(g);
    ScrolledExactlyWhen(g);
    StreamOnlyGrows(g);
    RequestsReadTheBudget(g);
  }

  lemma OwnIdsCount(inline: seq<Review>, rows: seq<Review>)
    ensures |IdSet(rows)| <= |IdSet(inline) + IdSet(rows)|
  {
    SubsetSize(IdSet(rows), IdSet(inline) + IdSet(rows));
  }

  lemma HeldIsCounted(g: Given)
    requires Ready(g)
    ensures |IdSet(Rows(g.cap, Collect(g)))| == Held(g.cap, Collect(g).stream)
  {
    HandedOnIsCounted({}, Collect(g).stream, g.cap);
    RowsOfIsExact({}, Collect(g).stream, g.cap);
  }

  /** Settling only ever turns exhausted into done; complete is told with done or with no reviews, nothing else. */
  lemma SettlingKeepsTheReason(inline: seq<Review>, found: Found)
    ensures var v := Settled(inline, found);
      && (v.stopReason != found.report.stopReason ==>
            found.report.stopReason.Exhausted? && v.stopReason.Done? && v.stopStage.NoStage? && v.stopDetail == NoDetail)
      && (v.complete ==> v.stopReason.Done? || v.stopReason.NoReviews?)
      && (v.stopReason == found.report.stopReason ==>
            v.stopStage == found.report.stopStage && v.stopDetail == found.report.stopDetail)
  {
  }

  /**
   * Conservation, on every way a run can end: the id-bearing rows collected are the RPC and DOM reviews
   * told of; each is written out or covered by an inline review; what is collected counts the union of
   * the inline ids with the ids written out, and what carries no id is counted beside it.
   */
  lemma NothingCollectedIsLost(g: Given, showsReviews: bool, inline: seq<Review>)
    requires Ready(g)
    ensures var found := FoundBy(g, showsReviews);
      var v, extended := Settled(inline, found), Beyond(IdSet(inline), found.rows);
      && |IdSet(found.rows)| == v.rpcReviews + v.domReviews
      && IdSet(extended) == IdSet(found.rows) - IdSet(inline)
      && v.collected == |IdSet(inline) + IdSet(extended)|
      && v.withoutID == |IdLess(extended)| + |IdLess(inline)|
  {
    FoundAddsUp(g, showsReviews);
    SettledCounts(inline, FoundBy(g, showsReviews));
  }

  lemma SettledCounts(inline: seq<Review>, found: Found)
    ensures var v, extended := Settled(inline, found), Beyond(IdSet(inline), found.rows);
      && v.rpcReviews == found.report.rpcReviews && v.domReviews == found.report.domReviews
      && IdSet(extended) == IdSet(found.rows) - IdSet(inline)
      && v.collected == |IdSet(inline) + IdSet(extended)|
      && v.withoutID == |IdLess(extended)| + |IdLess(inline)|
  {
    BeyondIds(IdSet(inline), found.rows);
    assert IdSet(inline) + (IdSet(found.rows) - IdSet(inline)) == IdSet(inline) + IdSet(found.rows);
  }

  /**
   * Done and complete without the listing read through: one page read of a listing that goes on, on a page
   * budget of one, and an inline review that makes up the count of two.
   */
  lemma DoneOnThePageBudget(cap: nat, read: Review, inline: Review, pace: nat)
    requires 1 < cap < 40 && read.id != [] && inline.id != [] && read.id != inline.id
    ensures var g := OnePageRun(cap, 2, read, pace);
      var v, r := Settled([inline], FoundBy(g, true)), Collect(g);
      && Starts(g) && v.complete && v.stopReason.Done? && v.stopDetail == NoDetail
      && OutOfPages(r.last) && !WholeChain(r.requests.progress.chain) && Held(cap, r.stream) == 1
  {
    var g := OnePageRun(cap, 2, read, pace);
    OnePageRunEnds(cap, 2, read, pace);
    OnePageIsNotTheListing(read);
    OneReviewIsHeld(cap, read);
    RowsOfOne(cap, read);
    TwoIds(read, inline);
    ExhaustedIsTold(g, read);
    ExhaustedIsSettled([inline], Found(Rows(cap, Collect(g)), ReportOf(cap, 2, Collect(g))));
  }

  lemma TwoIds(read: Review, inline: Review)
    requires read.id != [] && inline.id != [] && read.id != inline.id
    ensures |IdSet([inline]) + {read.id}| == 2
  {
    assert IdSet([inline]) == {inline.id};
    assert {inline.id} + {read.id} == {inline.id, read.id};
  }

  lemma ExhaustedIsTold(g: Given, read: Review)
    requires Ready(g) && g.reported == 2 && OutOfPages(Collect(g).outcome) && Collect(g).stream == [read]
    ensures var report := ReportOf(g.cap, 2, Collect(g));
      report.stopReason.Exhausted? && report.reportedKnown && report.reported == 2
  {
  }

  lemma RowsOfOne(cap: nat, review: Review)
    requires cap > 1 && review.id != []
    ensures IdSet(HandedOn({}, [review], cap)) == {review.id}
  {
    OneReviewIsHeld(cap, review);
    HandedOnIsCounted({}, [review], cap);
    RowsOfIsExact({}, [review], cap);
    BelowCapHoldsEverything({}, [review], cap, RowsOf({}, [review], cap));
  }

  lemma ExhaustedIsSettled(inline: seq<Review>, found: Found)
    requires found.report.stopReason.Exhausted? && found.report.reportedKnown
    requires |IdSet(inline) + IdSet(found.rows)| >= found.report.reported
    ensures var v := Settled(inline, found);
      v.complete && v.stopReason.Done? && v.stopDetail == NoDetail
  {
  }

  /** A place of two reviews whose browser is refused, with a page that shows both. */
  function RefusedRun(cap: nat, cards: seq<Review>, pace: nat): (g: Given)
    requires cap > 2
    ensures Ready(g)
  {
    Given(Outside(_ => false, _ => false, _ => false, _ => None), cap, 2, ReviewPageBudget(2, cap),
          Some(Line(_ => Refused("429"), false, [false], 0, [], 0, {})), None, Some(cards), Clock(0, 0, 0, 0, pace))
  }

  lemma RefusedRunEnds(cap: nat, cards: seq<Review>, pace: nat)
    requires cap > 2
    ensures var g := RefusedRun(cap, cards, pace);
      var r := Collect(g);
      Starts(g) && r.last == Stop(Blocked, Said("429")) && r.requests.progress == START
  {
    var g := RefusedRun(cap, cards, pace);
    var l, c := g.browser.value, AfterID(g);
    assert Fetch(g.out, l, Looked(c).(urls := c.urls + 1), "", false, 0).result == Stopped(Stop(Blocked, Said("429")));
    RefusedAtOnce(g.out, cap, l, c, g.budget);
  }

  lemma TwoCards(cap: nat, a: Review, b: Review)
    requires cap > 2 && a.id != [] && b.id != [] && a.id != b.id
    ensures Held(cap, []) == 0 && Held(cap, [a, b]) == 2
  {
    assert [a, b][..1] == [a];
    assert NewIds({}, [a]) == [a.id];
    assert NewIds({}, [a, b]) == [a.id, b.id];
  }

  /** Done and complete with no page of the listing read at all: the page's own list made up the count. */
  lemma DoneWhenRefused(cap: nat, a: Review, b: Review, pace: nat)
    requires cap > 2 && a.id != [] && b.id != [] && a.id != b.id
    ensures var g := RefusedRun(cap, [a, b], pace);
      var v, r := Settled([], FoundBy(g, true)), Collect(g);
      && Starts(g) && v.complete && v.stopReason.Done?
      && r.last.reason.Blocked? && Turns(r.requests.progress) == []
  {
    var g := RefusedRun(cap, [a, b], pace);
    var r := Collect(g);
    RefusedRunEnds(cap, [a, b], pace);
    assert Reviews([]) == [] && [] + [a, b] == [a, b];
    TwoCards(cap, a, b);
    ScrolledExactlyWhen(g);
    CollectScrolls(g);
    assert r.stream == [a, b];
    HeldIsCounted(g);
    OwnIdsCount([], Rows(cap, r));
    DoneExactlyWhen(g, true, []);
    CompleteIsEarned(g, true, []);
  }
}
