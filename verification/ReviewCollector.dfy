/**
 * The collector itself (gmaps/review_collector.go, gmaps/review_report.go): the objects a run updates in
 * place, each method held to the function of the run that it carries out.
 */
module ReviewCollection {
  import opened Common
  import opened ReviewSets
  import opened ReviewIdentity
  import opened ReviewRuns

  /** The report written beside the results. */
  class Report {
    var reported: int
    var reportedKnown: bool
    var collected: nat
    var complete: bool
    var withoutID: nat
    var stopReason: StopReason
    var stopStage: Stage
    var stopDetail: Detail
    var stages: seq<Stage>
    var rpcPages: nat
    var rpcReviews: nat
    var domReviews: nat
    var blocks: nat
    var identityRotations: nat
    var restarts: nat

    function View(): ReportView
      reads this
    {
      ReportView(reported, reportedKnown, collected, complete, withoutID, stopReason, stopStage, stopDetail, stages,
                 rpcPages, rpcReviews, domReviews, blocks, identityRotations, restarts)
    }

    constructor (reported: int)
      ensures View() == ReportView(reported, reported > 0, 0, false, 0, NotStopped, NoStage, NoDetail, [], 0, 0, 0, 0, 0, 0)
    {
      this.reported, reportedKnown := reported, reported > 0;
      collected, complete, withoutID := 0, false, 0;
      stopReason, stopStage, stopDetail, stages := NotStopped, NoStage, NoDetail, [];
      rpcPages, rpcReviews, domReviews, blocks, identityRotations, restarts := 0, 0, 0, 0, 0, 0;
    }

    /** Settle the report against the distinct union of inline and collected reviews. */
    method Finalize(collected: nat)
      modifies this`collected, this`stopReason, this`stopStage, this`stopDetail, this`complete
      ensures View() == Finalized(old(View()), collected)
    {
      this.collected := collected;
      if stopReason == Exhausted && reportedKnown && collected >= reported {
        stopReason, stopStage, stopDetail := Done, NoStage, NoDetail;
      }
      complete := (stopReason == Done && reportedKnown && collected >= reported) || (stopReason == NoReviews && collected == 0);
    }
  }

  /** Where pagination has got to, shared by the request stages; what was read is on record. */
  class Cursor {
    var token: Token
    var seen: set<Token>
    ghost var earlier: seq<Turn>
    ghost var chain: seq<Turn>

    constructor ()
      ensures token == "" && seen == {} && earlier == chain == []
    {
      token, seen := "", {};
      earlier, chain := [], [];
    }

    /** From the first page again; the pages already read stay collected. */
    method Restart()
      modifies this
      ensures token == "" && seen == {} && earlier == old(earlier + chain) && chain == []
    {
      token, seen := "", {};
      earlier, chain := earlier + chain, [];
    }
  }

  class Collector {
    const maxReviews: nat
    const outside: Outside
    var looks: nat
    var sleeps: nat
    var ids: nat
    var urls: nat
    /** The pause between two pages now. */
    var pace: nat

    constructor (maxReviews: nat, pageDelay: nat, outside: Outside)
      requires maxReviews > 0
      ensures this.maxReviews == maxReviews && this.outside == outside && Now() == Clock(0, 0, 0, 0, pageDelay)
    {
      this.maxReviews, this.outside := maxReviews, outside;
      looks, sleeps, ids, urls, pace := 0, 0, 0, 0, pageDelay;
    }

    function Now(): Clock
      reads this
    {
      Clock(looks, sleeps, ids, urls, pace)
    }

    method PastDeadline() returns (late: bool)
      modifies this`looks
      ensures late == outside.late(old(looks)) && Now() == Looked(old(Now()))
    {
      late := outside.late(looks);
      looks := looks + 1;
    }

    method Sleep() returns (interrupted: bool)
      modifies this`sleeps
      ensures interrupted == outside.interrupted(old(sleeps)) && Now() == Slept(old(Now()))
    {
      interrupted := outside.interrupted(sleeps);
      sleeps := sleeps + 1;
    }

    method NewID() returns (fails: bool)
      modifies this`ids
      ensures fails == outside.idFails(old(ids)) && Now() == old(Now()).(ids := old(ids) + 1)
    {
      fails := outside.idFails(ids);
      ids := ids + 1;
    }

    method UrlFor() returns (error: Option<string>)
      modifies this`urls
      ensures error == outside.urlError(old(urls)) && Now() == old(Now()).(urls := old(urls) + 1)
    {
      error := outside.urlError(urls);
      urls := urls + 1;
    }

    // -------------------------------------------------------------------------------------------
    // One page
    // -------------------------------------------------------------------------------------------

    /** The report's counts keep step with the route's record. */
    twostate predicate Counted(f: Route, report: Report)
      reads f, report
    {
      && report.blocks - Refusals(f.asked) == old(report.blocks) - Refusals(old(f.asked))
      && report.identityRotations - f.rotations == old(report.identityRotations) - old(f.rotations)
    }

    /** Give the identity in use up for the next one, on a route that has others. */
    method NextIdentity(f: Route, report: Report, ghost failing: bool) returns (moved: bool)
      requires Usable(f.View()) && f.rotating
      modifies f`blocked, f`cur, f`rotations, f`dropped, report`identityRotations
      ensures f.View() == Rotated(old(f.View()), failing)
      ensures moved <==> Usable(f.View())
      ensures report.identityRotations - f.rotations == old(report.identityRotations) - old(f.rotations)
    {
      RotationUsesOne(f.View(), failing);
      moved := f.Rotate(failing);
      if moved {
        report.identityRotations := report.identityRotations + 1;
      }
    }

    /** Refused as this identity: ask the same page as the next one, unless the deadline has passed. */
    method AfterRefusal(f: Route, report: Report, detail: string) returns (moved: bool, stop: Outcome)
      requires Usable(f.View())
      modifies this`looks, f`blocked, f`cur, f`rotations, f`dropped, report`identityRotations
      ensures LeadsOn(ReviewRuns.AfterRefusal(outside, old(f.View()), old(Now()), detail),
                      f.View(), Now(), moved, true, 0, Stopped(stop))
      ensures report.identityRotations - f.rotations == old(report.identityRotations) - old(f.rotations)
    {
      if !f.rotating {
        return false, Stop(Blocked, Said(detail));
      }
      moved := false;
      var late := PastDeadline();
      if !late {
        moved := NextIdentity(f, report, false);
      }
      stop := Stop(Blocked, EveryIdentityRefused(detail));
    }

    /** Slow the rest of the run down, then retry the same identity, or give it up for the next. */
    method AfterTransient(f: Route, report: Report, rotated: bool, attempt: nat, detail: string)
      returns (again: bool, rotated': bool, attempt': nat, stop: Outcome)
      requires Usable(f.View())
      modifies this`pace, this`looks, this`sleeps, f`blocked, f`cur, f`rotations, f`dropped, report`identityRotations
      ensures LeadsOn(ReviewRuns.AfterTransient(outside, old(f.View()), old(Now()), rotated, attempt, detail),
                      f.View(), Now(), again, rotated', attempt', Stopped(stop))
      ensures report.identityRotations - f.rotations == old(report.identityRotations) - old(f.rotations)
    {
      again, rotated', attempt', stop := false, true, 0, Stop(Budget, NoDetail);
      if pace < MAX_PAGE_DELAY {
        pace := Min(MAX_PAGE_DELAY, Max(pace * 2, SECOND));
      }
      var late := PastDeadline();
      if late {
        return;
      }
      if attempt >= TRANSIENT_RETRIES {
        if f.rotating {
          again := NextIdentity(f, report, true);
        }
        stop := Stop(Failed, Said(detail));
        return;
      }
      var interrupted := Sleep();
      if !interrupted {
        again, rotated', attempt' := true, rotated, attempt + 1;
      }
    }

    /** One request for the page at the token, and what follows from its answer. */
    method Request(f: Route, token: Token, report: Report, rotated: bool, attempt: nat)
      returns (again: bool, rotated': bool, attempt': nat, result: Fetched)
      requires Usable(f.View())
      modifies this`pace, this`looks, this`sleeps
      modifies f`blocked, f`cur, f`asked, f`rotations, f`dropped, report`blocks, report`identityRotations
      ensures LeadsOn(OneRequest(outside, old(f.View()), old(Now()), token, rotated, attempt),
                      f.View(), Now(), again, rotated', attempt', result)
      ensures Counted(f, report)
    {
      OneMoreRequest(f.asked, ReviewIdentity.Request(f.cur, token, f.answers(|f.asked|)));
      again, rotated', attempt' := false, true, 0;
      var answer := f.Ask(token);
      match answer {
        case Read(page) =>
          result := Got(page);
        case Unreadable(detail) =>
          result := Stopped(Outcome(ParseError, Said(detail), rotated));
        case Invalid(detail) =>
          result := Stopped(Outcome(Failed, Said(detail), rotated));
        case Refused(detail) =>
          report.blocks := report.blocks + 1;
          var stop;
          again, stop := AfterRefusal(f, report, detail);
          result := Stopped(stop);
        case Transient(detail) =>
          var stop;
          again, rotated', attempt', stop := AfterTransient(f, report, rotated, attempt, detail);
          result := Stopped(stop);
      }
    }

    /** Fetch and parse one page, as often and as whoever it takes. */
    method FetchOnePage(f: Route, token: Token, report: Report) returns (result: Fetched)
      requires Usable(f.View())
      modifies this`pace, this`looks, this`sleeps
      modifies f`blocked, f`cur, f`asked, f`rotations, f`dropped, report`blocks, report`identityRotations
      ensures FetchEnd(f.View(), Now(), result) == Fetch(outside, old(f.View()), old(Now()), token, false, 0)
      ensures Counted(f, report)
    {
      var rotated: bool, attempt: nat := false, 0;
      while true
        invariant Usable(f.View()) && attempt <= TRANSIENT_RETRIES
        invariant Fetch(outside, f.View(), Now(), token, rotated, attempt)
               == Fetch(outside, old(f.View()), old(Now()), token, false, 0)
        invariant Counted(f, report)
        decreases Unrefused(f.blocked), TRANSIENT_RETRIES - attempt
      {
        AgainUsesUp(outside, f.View(), Now(), token, rotated, attempt);
        var again;
        again, rotated, attempt, result := Request(f, token, report, rotated, attempt);
        if !again {
          return;
        }
      }
    }

    // -------------------------------------------------------------------------------------------
    // One stage
    // -------------------------------------------------------------------------------------------

    /** A page read is counted and goes into the set, all of it. */
    method KeepPage(revs: ReviewSet, cursor: Cursor, page: Page, report: Report)
      requires SetUp(revs, report, maxReviews) && Reading(revs, cursor, report)
      modifies revs, revs.primary, cursor`chain, report`rpcPages, report`rpcReviews
      ensures Reading(revs, cursor, report)
      ensures Where(cursor, report) == ReadOn(old(Where(cursor, report)), page)
    {
      ghost var turn := Turn(cursor.token, page);
      OneMoreTurn(cursor.earlier, cursor.chain, turn);
      cursor.chain := cursor.chain + [turn];
      report.rpcPages := report.rpcPages + 1;
      var added := revs.AddPage(page.reviews);
      report.rpcReviews := report.rpcReviews + added;
    }

    /** Keep a page that was got, and see whether and where the listing goes on. */
    method TurnPage(ghost l: Line, ghost budget: nat, revs: ReviewSet, cursor: Cursor, page: Page, report: Report)
      returns (on: bool, stop: Outcome)
      requires SetUp(revs, report, maxReviews) && Reading(revs, cursor, report)
      modifies this`sleeps, revs, revs.primary, cursor, report`rpcPages, report`rpcReviews
      ensures Reading(revs, cursor, report)
      ensures GoesOn(AfterPage(outside, maxReviews, l, old(Now()), old(Where(cursor, report)), budget, page),
                     l, Now(), Where(cursor, report), budget, on, stop)
    {
      KeepPage(revs, cursor, page, report);
      RowsAreHeld(revs);
      if revs.Len() >= maxReviews {
        return false, Stop(Cap, NoDetail);
      }
      if page.next == "" || page.next in cursor.seen {
        return false, Stop(Exhausted, NoDetail);
      }
      cursor.seen := cursor.seen + {page.next};
      cursor.token := page.next;
      var interrupted := Sleep();
      on, stop := !interrupted, Stop(Budget, NoDetail);
    }

    /** A fresh identity that cannot carry on from the token reads the listing from the start, once. */
    method StartAgain(ghost l: Line, budget: nat, failure: Outcome, ghost revs: ReviewSet, cursor: Cursor, report: Report)
      returns (on: bool, budget': nat)
      requires SetUp(revs, report, maxReviews) && Reading(revs, cursor, report)
      modifies this`ids, cursor, report`restarts
      ensures Reading(revs, cursor, report)
      ensures GoesOn(AfterFailure(outside, l, old(Now()), old(Where(cursor, report)), budget, failure),
                     l, Now(), Where(cursor, report), budget', on, failure)
    {
      on, budget' := false, budget;
      if failure.afterRotation && cursor.token != "" && report.restarts == 0 {
        var fails := NewID();
        if !fails {
          report.restarts := report.restarts + 1;
          budget' := budget + report.rpcPages;
          StartingAgain(cursor.earlier, cursor.chain);
          cursor.Restart();
          on := true;
        }
      }
    }

    /** Before a page is asked for: the deadline, the page budget, the page's URL. */
    method Guard(cursor: Cursor, report: Report, budget: nat) returns (stop: Option<Outcome>)
      requires report.rpcPages == |Turns(Where(cursor, report))|
      modifies this`looks, this`urls
      ensures Guarded(Now(), stop) == BeforeRequest(outside, old(Now()), Where(cursor, report), budget)
    {
      var late := PastDeadline();
      if late {
        return Some(Stop(Budget, NoDetail));
      }
      if report.rpcPages >= budget {
        return Some(Stop(Exhausted, PageBudgetReached));
      }
      var error := UrlFor();
      match error {
        case Some(why) => return Some(Stop(Failed, Said(why)));
        case None => return None;
      }
    }

    /** One round of a stage. */
    method Round(f: Route, revs: ReviewSet, cursor: Cursor, budget: nat, report: Report)
      returns (on: bool, budget': nat, stop: Outcome)
      requires Usable(f.View()) && SetUp(revs, report, maxReviews) && Reading(revs, cursor, report)
      modifies this, f, revs, revs.primary, cursor
      modifies report`blocks, report`identityRotations, report`rpcPages, report`rpcReviews, report`restarts
      ensures Reading(revs, cursor, report) && Counted(f, report)
      ensures GoesOn(OneRound(outside, maxReviews, old(f.View()), old(Now()), old(Where(cursor, report)), budget),
                     f.View(), Now(), Where(cursor, report), budget', on, stop)
    {
      on, budget' := false, budget;
      var guard := Guard(cursor, report, budget);
      if guard.Some? {
        stop := guard.value;
        return;
      }
      var result := FetchOnePage(f, cursor.token, report);
      match result {
        case Got(page) =>
          on, stop := TurnPage(f.View(), budget, revs, cursor, page, report);
        case Stopped(failure) =>
          on, budget' := StartAgain(f.View(), budget, failure, revs, cursor, report);
          stop := failure;
      }
    }

    /** Page through the listing on one route, from wherever the cursor is. */
    method RunRpcStage(f: Route, revs: ReviewSet, cursor: Cursor, pageBudget: nat, report: Report) returns (outcome: Outcome)
      requires Usable(f.View()) && SetUp(revs, report, maxReviews) && Reading(revs, cursor, report)
      modifies this, f, revs, revs.primary, cursor
      modifies report`blocks, report`identityRotations, report`rpcPages, report`rpcReviews, report`restarts
      ensures Reading(revs, cursor, report) && Counted(f, report)
      ensures StageEnd(f.View(), Now(), Where(cursor, report), outcome)
           == RunStage(outside, maxReviews, old(f.View()), old(Now()), old(Where(cursor, report)), pageBudget)
    {
      var budget: nat := pageBudget;
      while true
        invariant Usable(f.View()) && Reading(revs, cursor, report) && Counted(f, report)
        invariant RunStage(outside, maxReviews, f.View(), Now(), Where(cursor, report), budget)
               == RunStage(outside, maxReviews, old(f.View()), old(Now()), old(Where(cursor, report)), pageBudget)
        decreases if report.restarts == 0 then 1 else 0, if report.rpcPages < budget then budget - report.rpcPages else 0
      {
        OnUsesUp(outside, maxReviews, f.View(), Now(), Where(cursor, report), budget);
        var on;
        on, budget, outcome := Round(f, revs, cursor, budget, report);
        if !on {
          return;
        }
      }
    }

    // -------------------------------------------------------------------------------------------
    // The run
    // -------------------------------------------------------------------------------------------

    /** One stage, by its name in the report, when there is a route for it. */
    method AskRoute(f: Route?, stage: Stage, last: Outcome, lastStage: Stage,
                    revs: ReviewSet, cursor: Cursor, pageBudget: nat, report: Report)
      returns (last': Outcome, lastStage': Stage)
      requires MayBeUsed(LineOf(f)) && SetUp(revs, report, maxReviews) && Reading(revs, cursor, report)
      modifies this, f, revs, revs.primary, cursor
      modifies report`blocks, report`identityRotations, report`rpcPages, report`rpcReviews, report`restarts, report`stages
      ensures Reading(revs, cursor, report) && (f != null ==> Counted(f, report))
      ensures f == null ==> report.blocks == old(report.blocks) && report.identityRotations == old(report.identityRotations)
      ensures Reached(LineOf(f), Now(), Where(cursor, report), last', lastStage', report.stages)
           == AfterStage(outside, maxReviews, stage, pageBudget,
                Reached(old(LineOf(f)), old(Now()), old(Where(cursor, report)), last, lastStage, old(report.stages)))
    {
      last', lastStage' := last, lastStage;
      if f != null {
        report.stages := report.stages + [stage];
        lastStage' := stage;
        last' := RunRpcStage(f, revs, cursor, pageBudget, report);
      }
    }

    /** The request stages in turn, on one cursor, until one ends the collection. */
    method RunRpcStages(browser: Route?, http: Route?, revs: ReviewSet, cursor: Cursor, pageBudget: nat, report: Report)
      returns (last: Outcome, lastStage: Stage)
      requires browser == null || browser != http
      requires MayBeUsed(LineOf(browser)) && MayBeUsed(LineOf(http))
      requires SetUp(revs, report, maxReviews) && Reading(revs, cursor, report)
      requires Where(cursor, report) == START && report.stages == []
      requires Tallied(browser, http, report)
      modifies this, browser, http, revs, revs.primary, cursor
      modifies report`blocks, report`identityRotations, report`rpcPages, report`rpcReviews, report`restarts, report`stages
      ensures Reading(revs, cursor, report) && Tallied(browser, http, report)
      ensures RequestsEnd(LineOf(browser), LineOf(http), Now(), Where(cursor, report), last, lastStage, report.stages)
           == RunStages(outside, maxReviews, old(LineOf(browser)), old(LineOf(http)), old(Now()), pageBudget)
    {
      ghost var b, h, c := LineOf(browser), LineOf(http), Now();
      StagesInTurn(outside, maxReviews, b, h, c, pageBudget);
      last, lastStage := AskRoute(browser, RpcBrowser, Stop(NotStopped, NoDetail), NoStage, revs, cursor, pageBudget, report);
      if !EndsTheRun(last.reason) {
        last, lastStage := AskRoute(http, RpcHttp, last, lastStage, revs, cursor, pageBudget, report);
      }
    }

    /** Fold the page's own cards in. */
    method FoldCards(cards: seq<Review>, revs: ReviewSet, report: Report)
      requires revs.Valid() && |revs.rows| == report.rpcReviews + report.domReviews
      modifies revs, revs.primary, report`domReviews
      ensures revs.Valid() && |revs.rows| == report.rpcReviews + report.domReviews
      ensures revs.stream == old(revs.stream) + cards
    {
      var added := revs.AddPage(cards);
      report.domReviews := report.domReviews + added;
    }

    /** The page's own cards folded in, and where that leaves the run. */
    method Scroll(cards: seq<Review>, revs: ReviewSet, report: Report, last: Outcome, lastStage: Stage)
      returns (o: Outcome, stage: Stage)
      requires SetUp(revs, report, maxReviews) && Collected(revs, report)
      modifies this`looks, revs, revs.primary, report`domReviews, report`stages
      ensures Collected(revs, report)
      ensures revs.stream == old(revs.stream) + cards && report.stages == old(report.stages) + [Dom]
      ensures Conclusion(o, stage, true, looks)
           == Judged(outside, maxReviews, report.reported, last, lastStage, Held(maxReviews, revs.stream), old(looks))
    {
      report.stages := report.stages + [Dom];
      FoldCards(cards, revs, report);
      RowsAreHeld(revs);
      o, stage := Verdict(report.reported, report.reportedKnown, revs.Len(), revs.Distinct(), last, lastStage);
    }

    /** Out of time, full, enough, pagination ended, or still as the requests ended. */
    method Verdict(reported: int, reportedKnown: bool, held: nat, distinct: nat, last: Outcome, lastStage: Stage)
      returns (o: Outcome, stage: Stage)
      requires distinct == held && reportedKnown == (reported > 0)
      modifies this`looks
      ensures Conclusion(o, stage, true, looks) == Judged(outside, maxReviews, reported, last, lastStage, held, old(looks))
    {
      var late := PastDeadline();
      if late {
        return Stop(Budget, NoDetail), Dom;
      }
      if held >= maxReviews {
        return Stop(Cap, NoDetail), Dom;
      }
      if (reportedKnown && distinct >= reported) || last.reason.Exhausted? {
        return Stop(Exhausted, NoDetail), Dom;
      }
      return last, lastStage;
    }

    /** Are reviews missing that the page's own list might make up? */
    method Missing(revs: ReviewSet, report: Report, last: Outcome) returns (needMore: bool)
      requires SetUp(revs, report, maxReviews) && Collected(revs, report)
      ensures needMore == NeedMore(last.reason, report.reported, Held(maxReviews, revs.stream))
    {
      RowsAreHeld(revs);
      needMore := (report.reportedKnown && revs.Distinct() < report.reported)
        || (!report.reportedKnown && !last.reason.Exhausted?);
    }

    /** After the request stages: does the page's own list have to make anything up? */
    method ConcludeRun(dom: Option<seq<Review>>, revs: ReviewSet, report: Report, last: Outcome, lastStage: Stage)
      returns (o: Outcome, stage: Stage, ghost scrolled: bool)
      requires SetUp(revs, report, maxReviews) && Collected(revs, report)
      modifies this`looks, revs, revs.primary, report`domReviews, report`stages
      ensures Collected(revs, report)
      ensures Conclusion(o, stage, scrolled, looks)
           == Conclude(outside, maxReviews, report.reported, last, lastStage, Held(maxReviews, old(revs.stream)),
                       HeldWith(maxReviews, old(revs.stream), dom), old(looks))
      ensures scrolled ==> dom.Some? && revs.stream == old(revs.stream) + dom.value && report.stages == old(report.stages) + [Dom]
      ensures !scrolled ==> revs.stream == old(revs.stream) && report.stages == old(report.stages)
    {
      o, stage, scrolled := last, lastStage, false;
      if last.reason.Cap? || last.reason.Budget? {
        return;
      }
      var needMore := Missing(revs, report, last);
      if needMore && dom.Some? {
        var late := PastDeadline();
        if !late {
          scrolled := true;
          o, stage := Scroll(dom.value, revs, report, last, lastStage);
        }
      }
    }

    /** What the run found, and why and where it stopped, as the report is told it. */
    method Tell(ghost r: Run, o: Outcome, stage: Stage, revs: ReviewSet, report: Report) returns (rows: seq<Review>)
      requires SetUp(revs, report, maxReviews) && Collected(revs, report) && Counts(report, r.requests, maxReviews)
      requires revs.stream == r.stream && report.stages == r.stages && o == r.outcome && stage == r.stage
      requires report.collected == report.withoutID == 0 && !report.complete
      modifies report`stopReason, report`stopStage, report`stopDetail
      ensures rows == Rows(maxReviews, r)
      ensures report.View() == ReportOf(maxReviews, report.reported, r)
    {
      HandsOver(revs, report, r, maxReviews);
      rows := revs.Extended();
      ghost var before := report.View();
      TellIs(before, maxReviews, r);
      report.stopReason, report.stopStage, report.stopDetail := o.reason, stage, o.detail;
      if !report.reportedKnown && (o.reason.Exhausted? || o.reason.Done?) {
        report.stopReason := CountUnknown;
      }
      assert report.View() == Telling(before, r.outcome, r.stage);
    }

    /** The requests, and then the rest of the run, on a set, a cursor and a report nothing has been read into. */
    method RequestAndFinish(ghost g: Given, revs: ReviewSet, cursor: Cursor, browser: Route?, http: Route?,
                            dom: Option<seq<Review>>, budget: nat, report: Report)
      returns (rows: seq<Review>, ghost r: Run)
      requires browser == null || browser != http
      requires Ready(g) && Takes(g, browser, http, dom, budget) && report.reported == g.reported
      requires Now() == AfterID(g) && !outside.idFails(g.clock.ids)
      requires Blank(revs, cursor, report, maxReviews) && Tallied(browser, http, report)
      modifies this, browser, http, revs, revs.primary, cursor, report
      ensures r == Collect(g)
      ensures LineOf(browser) == r.requests.browser && LineOf(http) == r.requests.http
      ensures rows == Rows(maxReviews, r)
      ensures report.View() == ReportOf(maxReviews, g.reported, r)
    {
      var last, lastStage := RunRpcStages(browser, http, revs, cursor, budget, report);
      ghost var requests := RequestsEnd(LineOf(browser), LineOf(http), Now(), Where(cursor, report), last, lastStage, report.stages);
      rows, r := FinishRun(requests, browser, http, dom, revs, cursor, report, last, lastStage);
      CollectIs(g, requests, r);
    }

    /** The requests having ended, the page itself, and the report. */
    method FinishRun(ghost requests: RequestsEnd, ghost browser: Route?, ghost http: Route?, dom: Option<seq<Review>>,
                     revs: ReviewSet, ghost cursor: Cursor, report: Report, ended: Outcome, lastStage: Stage)
      returns (rows: seq<Review>, ghost r: Run)
      requires SetUp(revs, report, maxReviews) && Reading(revs, cursor, report) && Tallied(browser, http, report)
      requires requests
        == RequestsEnd(LineOf(browser), LineOf(http), Now(), Where(cursor, report), ended, lastStage, report.stages)
      requires report.domReviews == report.collected == report.withoutID == 0 && !report.complete
      modifies this`looks, revs, revs.primary
      modifies report`domReviews, report`stages, report`stopReason, report`stopStage, report`stopDetail
      ensures r == Finished(outside, maxReviews, report.reported, requests, dom)
      ensures LineOf(browser) == r.requests.browser && LineOf(http) == r.requests.http
      ensures rows == Rows(maxReviews, r)
      ensures report.View() == ReportOf(maxReviews, report.reported, r)
    {
      EndIsReached(requests, browser, http, revs, cursor, report, Now(), ended, lastStage, maxReviews);
      var last := if lastStage == NoStage then Stop(Failed, NoReviewRoute) else ended;
      ghost var read := revs.stream;
      var o, stage;
      ghost var scrolled;
      o, stage, scrolled := ConcludeRun(dom, revs, report, last, lastStage);
      assert read + [] == read;
      r := RunOf(requests, read, dom, Conclusion(o, stage, scrolled, looks));
      rows := Tell(r, o, stage, revs, report);
    }

    /** The run's givens are these. */
    ghost predicate Takes(g: Given, browser: Route?, http: Route?, dom: Option<seq<Review>>, budget: nat)
      reads browser, http
    {
      && g.out == outside && g.cap == maxReviews && g.budget == budget && g.dom == dom
      && g.browser == LineOf(browser) && g.http == LineOf(http)
    }

    /** A set, a cursor and a report nothing has been read into. */
    method Begin(reported: int) returns (revs: ReviewSet, cursor: Cursor, report: Report)
      requires maxReviews > 0
      ensures fresh(revs) && fresh(revs.primary) && fresh(cursor) && fresh(report)
      ensures Blank(revs, cursor, report, maxReviews) && report.reported == reported
    {
      report := new Report(reported);
      var nothing := new Review[0];
      revs := new ReviewSet(nothing, maxReviews);
      cursor := new Cursor();
    }

    /** Collect one place's reviews: what comes back is the run's rows and its report. */
    method Run(reported: int, browser: Route?, http: Route?, dom: Option<seq<Review>>)
      returns (rows: seq<Review>, report: Report, ghost r: Run)
      requires browser == null || browser != http
      requires maxReviews > 0 && Fresh(LineOf(browser)) && Fresh(LineOf(http))
      modifies this, browser, http
      ensures r == Collect(Given(outside, maxReviews, reported, ReviewPageBudget(reported, maxReviews),
                                 old(LineOf(browser)), old(LineOf(http)), dom, old(Now())))
      ensures rows == Rows(maxReviews, r)
      ensures fresh(report) && report.View() == ReportOf(maxReviews, reported, r)
      ensures LineOf(browser) == r.requests.browser && LineOf(http) == r.requests.http
    {
      var budget: nat := ReviewPageBudget(reported, maxReviews);
      ghost var g := Given(outside, maxReviews, reported, budget, LineOf(browser), LineOf(http), dom, Now());
      var revs, cursor;
      revs, cursor, report := Begin(reported);
      NothingTallied(browser, http, report);
      var fails := NewID();
      if fails {
        r := NoRequestIdRun(g.browser, g.http, AfterID(g));
        NothingCounted(r.requests, maxReviews);
        rows := Tell(r, Stop(Failed, NoRequestId), RpcBrowser, revs, report);
      } else {
        rows, r := RequestAndFinish(g, revs, cursor, browser, http, dom, budget, report);
      }
    }
  }

  datatype Tally = Tally(pages: nat, reviews: nat, restarts: nat, blocks: nat, rotations: nat)

  function TallyOf(cap: nat, ended: RequestsEnd): Tally {
    Tally(|Turns(ended.progress)|, Held(cap, Reviews(Turns(ended.progress))), ended.progress.restarts,
          Refusals(AskedOn(ended.browser)) + Refusals(AskedOn(ended.http)),
          RotationsOn(ended.browser) + RotationsOn(ended.http))
  }

  /** The report's counts are those of the requests. */
  ghost predicate Counts(report: Report, ended: RequestsEnd, cap: nat)
    reads report`rpcPages, report`rpcReviews, report`restarts, report`blocks, report`identityRotations
  {
    Tally(report.rpcPages, report.rpcReviews, report.restarts, report.blocks, report.identityRotations) == TallyOf(cap, ended)
  }

  lemma CollectIs(g: Given, requests: RequestsEnd, r: Run)
    requires Ready(g) && !g.out.idFails(g.clock.ids)
    requires requests == RunStages(g.out, g.cap, g.browser, g.http, AfterID(g), g.budget)
    requires r == Finished(g.out, g.cap, g.reported, requests, g.dom)
    ensures r == Collect(g)
  {
  }

  /** Where the requests have got to, as the stage on this route finds it. */
  datatype Reached = Reached(line: Option<Line>, clock: Clock, progress: Progress, last: Outcome, lastStage: Stage, stages: seq<Stage>)

  ghost function AfterStage(out: Outside, cap: nat, stage: Stage, budget: nat, r: Reached): Reached
    requires MayBeUsed(r.line)
  {
    match r.line
    case None => r
    case Some(l) =>
      var e := RunStage(out, cap, l, r.clock, r.progress, budget);
      Reached(Some(e.line), e.clock, e.progress, e.outcome, stage, r.stages + [stage])
  }

  /** The stages taken one after the other, the second unless the first ends the run, are the run's. */
  lemma StagesInTurn(out: Outside, cap: nat, browser: Option<Line>, http: Option<Line>, c: Clock, budget: nat)
    requires MayBeUsed(browser) && MayBeUsed(http)
    ensures var first := AfterStage(out, cap, RpcBrowser, budget, Reached(browser, c, START, Stop(NotStopped, NoDetail), NoStage, []));
      var second := if EndsTheRun(first.last.reason) then first.(line := http)
                    else AfterStage(out, cap, RpcHttp, budget, first.(line := http));
      RunStages(out, cap, browser, http, c, budget)
        == RequestsEnd(first.line, second.line, second.clock, second.progress, second.last, second.lastStage, second.stages)
  {
  }

  lemma EndIsReached(requests: RequestsEnd, browser: Route?, http: Route?, revs: ReviewSet, cursor: Cursor, report: Report,
                     now: Clock, last: Outcome, lastStage: Stage, cap: nat)
    requires SetUp(revs, report, cap) && Reading(revs, cursor, report) && Tallied(browser, http, report)
    requires requests == RequestsEnd(LineOf(browser), LineOf(http), now, Where(cursor, report), last, lastStage, report.stages)
    ensures AtEnd(requests, revs, report, now, LastOf(requests), lastStage, cap)
    ensures LastOf(requests) == if lastStage == NoStage then Stop(Failed, NoReviewRoute) else last
  {
    RowsAreHeld(revs);
  }

  lemma NothingTallied(browser: Route?, http: Route?, report: Report)
    requires Fresh(LineOf(browser)) && Fresh(LineOf(http)) && report.blocks == report.identityRotations == 0
    ensures Tallied(browser, http, report) && MayBeUsed(LineOf(browser)) && MayBeUsed(LineOf(http))
  {
    NothingAsked(LineOf(browser));
    NothingAsked(LineOf(http));
  }

  lemma NothingCounted(ended: RequestsEnd, cap: nat)
    requires ended.progress == START
    ensures Turns(ended.progress) == [] && Held(cap, Reviews(Turns(ended.progress))) == 0
  {
  }

  /** A report told why and where the run ended. */
  ghost function Telling(v: ReportView, o: Outcome, stage: Stage): ReportView {
    v.(stopReason := Told(o.reason, v.reportedKnown), stopStage := stage, stopDetail := o.detail)
  }

  lemma TellIs(v: ReportView, cap: nat, r: Run)
    requires Tally(v.rpcPages, v.rpcReviews, v.restarts, v.blocks, v.identityRotations) == TallyOf(cap, r.requests)
    requires v.stages == r.stages && v.reportedKnown == (v.reported > 0) && v.collected == v.withoutID == 0 && !v.complete
    requires v.domReviews == Max(0, Held(cap, r.stream) - v.rpcReviews)
    ensures Telling(v, r.outcome, r.stage) == ReportOf(cap, v.reported, r)
  {
  }

  lemma HandsOver(revs: ReviewSet, report: Report, r: Run, cap: nat)
    requires SetUp(revs, report, cap) && Collected(revs, report) && revs.stream == r.stream
    requires report.rpcReviews == Held(cap, Reviews(Turns(r.requests.progress)))
    ensures revs.Extended() == Rows(cap, r)
    ensures report.domReviews == Max(0, Held(cap, r.stream) - report.rpcReviews)
  {
    assert revs.primaryIDs.Keys == {};
    RowsAreHeld(revs);
  }

  ghost function LineOf(f: Route?): Option<Line>
    reads f
  {
    if f == null then None else Some(f.View())
  }

  ghost function RefusalsBy(f: Route?): nat
    reads f
  {
    if f == null then 0 else Refusals(f.asked)
  }

  ghost function RotationsBy(f: Route?): nat
    reads f
  {
    if f == null then 0 else f.rotations
  }

  /** The report's counts of refusals and rotations are those of the routes. */
  ghost predicate Tallied(browser: Route?, http: Route?, report: Report)
    reads browser, http, report`blocks, report`identityRotations
  {
    && report.blocks == RefusalsBy(browser) + RefusalsBy(http)
    && report.identityRotations == RotationsBy(browser) + RotationsBy(http)
  }

  /** A set that started without inline reviews, of this cap, and a report that knows its count. */
  ghost predicate SetUp(revs: ReviewSet, report: Report, cap: nat)
    reads report`reported, report`reportedKnown
  {
    revs.inline == [] && revs.cap == cap && report.reportedKnown == (report.reported > 0)
  }

  /** The report counts what the set holds. */
  ghost predicate Collected(revs: ReviewSet, report: Report)
    reads revs, revs.primary, report`rpcReviews, report`domReviews
  {
    revs.Valid() && |revs.rows| == report.rpcReviews + report.domReviews
  }

  /** The objects are where the requests have got to. */
  ghost predicate AtEnd(requests: RequestsEnd, revs: ReviewSet, report: Report, now: Clock, last: Outcome, lastStage: Stage, cap: nat)
    reads revs`stream, report`stages, report`rpcPages, report`rpcReviews, report`restarts, report`blocks, report`identityRotations
  {
    && Counts(report, requests, cap)
    && revs.stream == Reviews(Turns(requests.progress))
    && report.stages == requests.stages && now == requests.clock
    && last == LastOf(requests) && lastStage == requests.lastStage
  }

  ghost predicate Blank(revs: ReviewSet, cursor: Cursor, report: Report, cap: nat)
    reads revs, revs.primary, cursor, report
  {
    && SetUp(revs, report, cap) && Reading(revs, cursor, report) && Where(cursor, report) == START
    && report.stages == []
    && report.domReviews == report.blocks == report.identityRotations == 0
    && report.collected == report.withoutID == 0 && !report.complete
  }

  /** Pagination as the stages see it. */
  ghost function Where(cursor: Cursor, report: Report): Progress
    reads cursor, report`restarts
  {
    Progress(cursor.token, cursor.seen, cursor.earlier, cursor.chain, report.restarts)
  }

  /** The set holds exactly what the pages read so far carried, and the report counts both. */
  ghost predicate Reading(revs: ReviewSet, cursor: Cursor, report: Report)
    reads revs, revs.primary, cursor`earlier, cursor`chain, report`rpcPages, report`rpcReviews
  {
    && revs.Valid()
    && revs.stream == Reviews(cursor.earlier + cursor.chain)
    && report.rpcPages == |cursor.earlier + cursor.chain|
    && report.rpcReviews == |revs.rows|
  }

  lemma OneMoreTurn(earlier: seq<Turn>, chain: seq<Turn>, turn: Turn)
    ensures Reviews(earlier + (chain + [turn])) == Reviews(earlier + chain) + turn.page.reviews
    ensures |earlier + (chain + [turn])| == |earlier + chain| + 1
  {
    var all := (earlier + chain) + [turn];
    assert earlier + (chain + [turn]) == all;
    assert all[..|earlier + chain|] == earlier + chain;
  }

  lemma StartingAgain(earlier: seq<Turn>, chain: seq<Turn>)
    ensures (earlier + chain) + [] == earlier + chain
  {
  }

  lemma RowsAreHeld(revs: ReviewSet)
    requires revs.Valid() && revs.inline == []
    ensures |revs.rows| == Held(revs.cap, revs.stream)
  {
    assert revs.primaryIDs.Keys == {};
    RowsOfIsExact({}, revs.stream, revs.cap);
  }

  /** What a request led to, in the collector's own fields: another one for the page, or the end of asking. */
  ghost predicate LeadsOn(next: Next, line: Line, clock: Clock, again: bool, rotated: bool, attempt: nat, result: Fetched) {
    match next
    case Again(l, c, r, a) => again && line == l && clock == c && rotated == r && attempt == a
    case Over(end) => !again && end == FetchEnd(line, clock, result)
  }

  /** What a round led to: the next one, or the end of the stage. */
  ghost predicate GoesOn(round: ReviewRuns.Round, line: Line, clock: Clock, p: Progress, budget: nat, on: bool, stop: Outcome) {
    match round
    case On(l, c, q, b) => on && line == l && clock == c && p == q && budget == b
    case Ended(end) => !on && end == StageEnd(line, clock, p, stop)
  }
}
