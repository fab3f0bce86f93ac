/**
 * What one place's review collection does (gmaps/review_collector.go), as functions of what the routes
 * answer, what the page shows, and what the clock, the sleeps and the id and URL makers turn out to do:
 * one page, one stage, both stages, the run. Then what every run promises.
 */
module ReviewRuns {
  import opened Common
  import opened ReviewSets
  import opened ReviewIdentity

  datatype StopReason =
    | NotStopped | Done | Exhausted | Budget | Blocked | Cap | ParseError | CountUnknown | NoReviews | Failed

  datatype Stage = NoStage | RpcBrowser | RpcHttp | Dom

  /** Why a stage did not end cleanly, when it did not. */
  datatype Detail =
    | NoDetail
    | PageBudgetReached
    | EveryIdentityRefused(answer: string)
    | NoRequestId
    | NoReviewRoute
    | Said(why: string)

  /** The words the report is given. */
  function Written(d: Detail): string {
    match d
    case NoDetail => ""
    case PageBudgetReached => "page budget reached"
    case EveryIdentityRefused(answer) => "every proxy identity was refused: " + answer
    case NoRequestId => "no request id"
    case NoReviewRoute => "no review route available"
    case Said(why) => why
  }

  /** How one stage ended. `afterRotation`: on the first page asked of a freshly rotated identity. */
  datatype Outcome = Outcome(reason: StopReason, detail: Detail, afterRotation: bool)

  function Stop(reason: StopReason, detail: Detail): Outcome {
    Outcome(reason, detail, false)
  }

  const TRANSIENT_RETRIES := 2
  const SECOND := 1000
  const MAX_PAGE_DELAY := 8 * SECOND

  /**
   * Everything the run does not decide: what each look at the deadline, each sleep, each request id
   * and each page URL comes to, in the order they are asked for.
   */
  datatype Outside = Outside(
    late: nat -> bool, interrupted: nat -> bool, idFails: nat -> bool, urlError: nat -> Option<string>)

  /** How often each was asked for so far, and the pause between two pages now. */
  datatype Clock = Clock(looks: nat, sleeps: nat, ids: nat, urls: nat, pace: nat)

  function Looked(c: Clock): Clock {
    c.(looks := c.looks + 1)
  }

  function Slept(c: Clock): Clock {
    c.(sleeps := c.sleeps + 1)
  }

  /** The pause after one more transient failure: doubled, from one second up to eight. */
  function Slower(pace: nat): nat {
    if pace < MAX_PAGE_DELAY then Min(MAX_PAGE_DELAY, Max(2 * pace, SECOND)) else pace
  }

  // ---------------------------------------------------------------------------------------------
  // One page
  // ---------------------------------------------------------------------------------------------

  datatype Fetched = Got(page: Page) | Stopped(outcome: Outcome)

  datatype FetchEnd = FetchEnd(line: Line, clock: Clock, result: Fetched)

  /** What one request leads to: another one for the same page, or the end of asking. */
  datatype Next = Again(line: Line, clock: Clock, rotated: bool, attempt: nat) | Over(end: FetchEnd)

  function GivenUp(l: Line, c: Clock, failing: bool, otherwise: Outcome): Next
    requires Usable(l)
  {
    var t := Rotated(l, failing);
    if Usable(t) then Again(t, c, true, 0) else Over(FetchEnd(t, c, Stopped(otherwise)))
  }

  /** A refused identity is given up for the next, while the deadline allows. */
  function AfterRefusal(out: Outside, l: Line, c: Clock, detail: string): Next
    requires Usable(l)
  {
    if !l.rotating then Over(FetchEnd(l, c, Stopped(Stop(Blocked, Said(detail)))))
    else
      var refused := Stop(Blocked, EveryIdentityRefused(detail));
      if out.late(c.looks) then Over(FetchEnd(l, Looked(c), Stopped(refused)))
      else GivenUp(l, Looked(c), false, refused)
  }

  /** A failure is retried twice as the same identity, which is then given up for the next. */
  function AfterTransient(out: Outside, l: Line, c: Clock, rotated: bool, attempt: nat, detail: string): Next
    requires Usable(l)
  {
    var d := Looked(c.(pace := Slower(c.pace)));
    if out.late(c.looks) then Over(FetchEnd(l, d, Stopped(Stop(Budget, NoDetail))))
    else if attempt >= TRANSIENT_RETRIES then
      if l.rotating then GivenUp(l, d, true, Stop(Failed, Said(detail)))
      else Over(FetchEnd(l, d, Stopped(Stop(Failed, Said(detail)))))
    else if out.interrupted(c.sleeps) then Over(FetchEnd(l, Slept(d), Stopped(Stop(Budget, NoDetail))))
    else Again(l, Slept(d), rotated, attempt + 1)
  }

  function OneRequest(out: Outside, l: Line, c: Clock, token: Token, rotated: bool, attempt: nat): Next
    requires Usable(l)
  {
    var q := Asked(l, token);
    match l.answers(|l.asked|)
    case Read(page) => Over(FetchEnd(q, c, Got(page)))
    case Unreadable(detail) => Over(FetchEnd(q, c, Stopped(Outcome(ParseError, Said(detail), rotated))))
    case Invalid(detail) => Over(FetchEnd(q, c, Stopped(Outcome(Failed, Said(detail), rotated))))
    case Refused(detail) => AfterRefusal(out, q, c, detail)
    case Transient(detail) => AfterTransient(out, q, c, rotated, attempt, detail)
  }

  /** Asking again uses an identity or a retry up: there are only so many requests for one page. */
  lemma AgainUsesUp(out: Outside, l: Line, c: Clock, token: Token, rotated: bool, attempt: nat)
    requires Usable(l) && attempt <= TRANSIENT_RETRIES
    ensures var next := OneRequest(out, l, c, token, rotated, attempt);
      && (next.Again? ==> Usable(next.line) && next.attempt <= TRANSIENT_RETRIES && |next.line.asked| == |l.asked| + 1)
      && (next.Again? ==>
          || (Unrefused(next.line.blocked) < Unrefused(l.blocked) && next.attempt == 0)
          || (next.line.blocked == l.blocked && next.attempt == attempt + 1))
      && (next.Over? && (next.end.result.Got? || next.end.result.outcome.afterRotation) ==> Usable(next.end.line))
  {
    RotationUsesOne(Asked(l, token), l.answers(|l.asked|).Transient?);
  }

  /** Ask for one page until it is got or given up. */
  function Fetch(out: Outside, l: Line, c: Clock, token: Token, rotated: bool, attempt: nat): (e: FetchEnd)
    requires Usable(l) && attempt <= TRANSIENT_RETRIES
    ensures e.result.Got? || e.result.outcome.afterRotation ==> Usable(e.line)
    decreases Unrefused(l.blocked), TRANSIENT_RETRIES - attempt
  {
    AgainUsesUp(out, l, c, token, rotated, attempt);
    match OneRequest(out, l, c, token, rotated, attempt)
    case Over(end) => end
    case Again(line, clock, rotated', attempt') => Fetch(out, line, clock, token, rotated', attempt')
  }

  /** The same route later in the run: its record only longer and honest, no request made as a refused identity. */
  ghost predicate Kept(l: Line, t: Line) {
    && t.answers == l.answers && t.rotating == l.rotating && |t.blocked| == |l.blocked|
    && l.asked <= t.asked && Honest(t) && NeverAfterRefusal(t.asked)
    && l.rotations <= t.rotations <= |t.blocked| - 1
  }

  lemma InOrderIsKept(l: Line)
    requires InOrder(l)
    ensures Kept(l, l)
  {
    OneLeft(l.blocked, l.cur);
  }

  /** The route is in order when more may be asked on it, and its record is honest in any case. */
  ghost predicate Leaves(l: Line, next: Next) {
    match next
    case Again(line, _, _, _) => Kept(l, line) && InOrder(line)
    case Over(end) => Kept(l, end.line) && (end.result.Got? || end.result.outcome.afterRotation ==> InOrder(end.line))
  }

  lemma AskedIsKept(l: Line, token: Token)
    requires InOrder(l)
    ensures Kept(l, Asked(l, token))
    ensures !l.answers(|l.asked|).Refused? ==> InOrder(Asked(l, token))
  {
    InOrderIsKept(l);
    AskingKeepsOrder(l, token);
  }

  lemma GivenUpIsKept(l: Line, token: Token, c: Clock, failing: bool, otherwise: Outcome)
    requires InOrder(l) && failing == !l.answers(|l.asked|).Refused? && !otherwise.afterRotation
    ensures Leaves(l, GivenUp(Asked(l, token), c, failing, otherwise))
  {
    AskedIsKept(l, token);
    RotatingKeepsOrder(l, token);
    RotationUsesOne(Asked(l, token), failing);
  }

  lemma RequestKeepsLine(out: Outside, l: Line, c: Clock, token: Token, rotated: bool, attempt: nat)
    requires InOrder(l)
    ensures Leaves(l, OneRequest(out, l, c, token, rotated, attempt))
  {
    AskedIsKept(l, token);
    match l.answers(|l.asked|)
    case Refused(detail) =>
      GivenUpIsKept(l, token, Looked(c), false, Stop(Blocked, EveryIdentityRefused(detail)));
    case Transient(detail) =>
      GivenUpIsKept(l, token, Looked(c.(pace := Slower(c.pace))), true, Stop(Failed, Said(detail)));
    case _ =>
  }

  lemma {:induction false} FetchKeepsLine(out: Outside, l: Line, c: Clock, token: Token, rotated: bool, attempt: nat)
    requires InOrder(l) && attempt <= TRANSIENT_RETRIES
    ensures Leaves(l, Over(Fetch(out, l, c, token, rotated, attempt)))
    decreases Unrefused(l.blocked), TRANSIENT_RETRIES - attempt
  {
    AgainUsesUp(out, l, c, token, rotated, attempt);
    RequestKeepsLine(out, l, c, token, rotated, attempt);
    var next := OneRequest(out, l, c, token, rotated, attempt);
    if next.Again? {
      FetchKeepsLine(out, next.line, next.clock, token, next.rotated, next.attempt);
    }
  }

  /** At most three requests for every identity not yet given up. */
  lemma {:induction false} FetchAsksFew(out: Outside, l: Line, c: Clock, token: Token, rotated: bool, attempt: nat)
    requires Usable(l) && attempt <= TRANSIENT_RETRIES
    ensures |l.asked| < |Fetch(out, l, c, token, rotated, attempt).line.asked| <= |l.asked| + 3 * Unrefused(l.blocked) - attempt
    decreases Unrefused(l.blocked), TRANSIENT_RETRIES - attempt
  {
    AgainUsesUp(out, l, c, token, rotated, attempt);
    OneLeft(l.blocked, l.cur);
    var next := OneRequest(out, l, c, token, rotated, attempt);
    if next.Again? {
      FetchAsksFew(out, next.line, next.clock, token, next.rotated, next.attempt);
    }
  }

  /** Asking again reads no page; the mark of a fresh identity is set by the rotation it stands for. */
  lemma AgainReadsNothing(out: Outside, l: Line, c: Clock, token: Token, rotated: bool, attempt: nat)
    requires Usable(l)
    ensures var next := OneRequest(out, l, c, token, rotated, attempt);
      next.Again? ==>
        && PagesRead(next.line.asked) == PagesRead(l.asked)
        && l.asked <= next.line.asked
        && next.line.rotations >= l.rotations && next.line.rotating == l.rotating
        && (next.rotated <==> rotated || next.line.rotations > l.rotations)
  {
    OneMoreRequest(l.asked, Request(l.cur, token, l.answers(|l.asked|)));
    RotationUsesOne(Asked(l, token), l.answers(|l.asked|).Transient?);
  }

  /** How one page ends on this answer. */
  ghost predicate EndsOn(answer: Answer, rotating: bool, newcomer: bool, result: Fetched) {
    match answer
    case Read(page) => result == Got(page)
    case Unreadable(detail) => result == Stopped(Outcome(ParseError, Said(detail), newcomer))
    case Invalid(detail) => result == Stopped(Outcome(Failed, Said(detail), newcomer))
    case Refused(detail) => result == Stopped(Stop(Blocked, if rotating then EveryIdentityRefused(detail) else Said(detail)))
    case Transient(detail) => result == Stopped(Stop(Failed, Said(detail))) || result == Stopped(Stop(Budget, NoDetail))
  }

  /** What was asked for one page: at least one request for its token, of which only the last can read a page. */
  ghost predicate AskedFor(l: Line, token: Token, asked: seq<Request>) {
    && |asked| > |l.asked| && l.asked <= asked
    && var last := asked[|asked| - 1];
    && last.token == token
    && PagesRead(asked) == if last.answer.Read? then PagesRead(l.asked) + [Turn(token, last.answer.page)] else PagesRead(l.asked)
  }

  ghost predicate EndsOnTheAnswer(l: Line, token: Token, rotated: bool, e: FetchEnd) {
    && AskedFor(l, token, e.line.asked)
    && e.line.rotations >= l.rotations
    && EndsOn(e.line.asked[|e.line.asked| - 1].answer, l.rotating, rotated || e.line.rotations > l.rotations, e.result)
  }

  lemma OverOnTheAnswer(out: Outside, l: Line, c: Clock, token: Token, rotated: bool, attempt: nat)
    requires Usable(l) && OneRequest(out, l, c, token, rotated, attempt).Over?
    ensures var e := OneRequest(out, l, c, token, rotated, attempt).end;
      && e.line.asked == Asked(l, token).asked && e.line.rotations == l.rotations
      && EndsOn(l.answers(|l.asked|), l.rotating, rotated, e.result)
  {
  }

  lemma OverEndsOnTheAnswer(out: Outside, l: Line, c: Clock, token: Token, rotated: bool, attempt: nat)
    requires Usable(l) && OneRequest(out, l, c, token, rotated, attempt).Over?
    ensures EndsOnTheAnswer(l, token, rotated, OneRequest(out, l, c, token, rotated, attempt).end)
  {
    OverOnTheAnswer(out, l, c, token, rotated, attempt);
    OneMoreRequest(l.asked, Request(l.cur, token, l.answers(|l.asked|)));
  }

  lemma AskedOnAndOn(l: Line, t: Line, token: Token, asked: seq<Request>)
    requires AskedFor(t, token, asked) && l.asked <= t.asked && PagesRead(t.asked) == PagesRead(l.asked)
    ensures AskedFor(l, token, asked)
  {
  }

  /**
   * The last answer decides: a page is got exactly when it came, and a stop is marked as after a rotation
   * exactly when the answer was unreadable or invalid and a rotation came before it.
   */
  lemma {:induction false} FetchEndsOnTheAnswer(out: Outside, l: Line, c: Clock, token: Token, rotated: bool, attempt: nat)
    requires Usable(l) && attempt <= TRANSIENT_RETRIES
    ensures EndsOnTheAnswer(l, token, rotated, Fetch(out, l, c, token, rotated, attempt))
    decreases Unrefused(l.blocked), TRANSIENT_RETRIES - attempt
  {
    AgainUsesUp(out, l, c, token, rotated, attempt);
    var next := OneRequest(out, l, c, token, rotated, attempt);
    if next.Again? {
      AgainReadsNothing(out, l, c, token, rotated, attempt);
      FetchEndsOnTheAnswer(out, next.line, next.clock, token, next.rotated, next.attempt);
      EndsFurtherOn(l, next, token, rotated, Fetch(out, next.line, next.clock, token, next.rotated, next.attempt));
    } else {
      OverEndsOnTheAnswer(out, l, c, token, rotated, attempt);
    }
  }

  lemma EndsFurtherOn(l: Line, next: Next, token: Token, rotated: bool, e: FetchEnd)
    requires next.Again? && EndsOnTheAnswer(next.line, token, next.rotated, e)
    requires PagesRead(next.line.asked) == PagesRead(l.asked) && l.asked <= next.line.asked
    requires next.line.rotations >= l.rotations && next.line.rotating == l.rotating
    requires next.rotated <==> rotated || next.line.rotations > l.rotations
    ensures EndsOnTheAnswer(l, token, rotated, e)
  {
    AskedOnAndOn(l, next.line, token, e.line.asked);
  }

  // ---------------------------------------------------------------------------------------------
  // "Every proxy identity was refused"
  // ---------------------------------------------------------------------------------------------

  ghost predicate AllRefused(l: Line) {
    forall i :: 0 <= i < |l.blocked| ==> RefusedIn(l.asked, i)
  }

  ghost predicate AnotherLeft(l: Line) {
    exists i :: 0 <= i < |l.blocked| && i != l.cur && !l.blocked[i]
  }

  /** The detail holds: no identity was given up for failing, and time was not up with another one left. */
  ghost predicate DetailHolds(out: Outside, l: Line, c: Clock) {
    l.dropped == {} && !(c.looks > 0 && out.late(c.looks - 1) && AnotherLeft(l))
  }

  /** Time is up: the identity in use was refused, any other one given up was refused or kept failing. */
  lemma LateRefusal(l: Line, token: Token)
    requires InOrder(l) && l.answers(|l.asked|).Refused?
    ensures var q := Asked(l, token);
      AllRefused(q) <==> q.dropped == {} && !AnotherLeft(q)
  {
    OneMoreRequest(l.asked, Request(l.cur, token, l.answers(|l.asked|)));
    var q := Asked(l, token);
    if i :| i in q.dropped {
      assert !RefusedIn(q.asked, i);
    }
  }

  /** None is left: each was refused or kept failing. */
  lemma LastRefusal(l: Line, token: Token)
    requires InOrder(l) && l.answers(|l.asked|).Refused? && !Usable(Rotated(Asked(l, token), false))
    ensures var t := Rotated(Asked(l, token), false);
      (AllRefused(t) <==> t.dropped == {}) && !AnotherLeft(t)
  {
    RotatingKeepsOrder(l, token);
    RotationUsesOne(Asked(l, token), false);
    var t := Rotated(Asked(l, token), false);
    if i :| i in t.dropped {
      assert !RefusedIn(t.asked, i);
    }
  }

  lemma RefusalDetail(out: Outside, l: Line, c: Clock, token: Token, rotated: bool, attempt: nat)
    requires InOrder(l) && l.rotating && l.answers(|l.asked|).Refused?
    requires OneRequest(out, l, c, token, rotated, attempt).Over?
    ensures var e := OneRequest(out, l, c, token, rotated, attempt).end;
      AllRefused(e.line) <==> DetailHolds(out, e.line, e.clock)
  {
    if out.late(c.looks) {
      LateRefusal(l, token);
    } else {
      LastRefusal(l, token);
    }
  }

  /**
   * A rotating route that ends refused says that every identity was refused. That is so if and only if
   * none was given up for failing and the deadline did not pass with another identity left.
   */
  lemma {:induction false} EveryIdentityRefusedExactlyWhen(
      out: Outside, l: Line, c: Clock, token: Token, rotated: bool, attempt: nat)
    requires InOrder(l) && l.rotating && attempt <= TRANSIENT_RETRIES
    ensures var e := Fetch(out, l, c, token, rotated, attempt);
      e.result.Stopped? && e.result.outcome.reason.Blocked? ==> (AllRefused(e.line) <==> DetailHolds(out, e.line, e.clock))
    decreases Unrefused(l.blocked), TRANSIENT_RETRIES - attempt
  {
    AgainUsesUp(out, l, c, token, rotated, attempt);
    RequestKeepsLine(out, l, c, token, rotated, attempt);
    var next := OneRequest(out, l, c, token, rotated, attempt);
    if next.Again? {
      EveryIdentityRefusedExactlyWhen(out, next.line, next.clock, token, next.rotated, next.attempt);
    } else if l.answers(|l.asked|).Refused? {
      RefusalDetail(out, l, c, token, rotated, attempt);
    }
  }

  /** Refused as its second identity with time up by then: the first has not been asked as. */
  lemma TimeUpAtTheRefusal(out: Outside, l: Line, c: Clock)
    requires l == Line(_ => Refused("429"), true, [false, false], 1, [], 0, {}) && out.late(c.looks)
    ensures var e := Fetch(out, l, c, "", false, 0);
      e.result == Stopped(Stop(Blocked, EveryIdentityRefused("429"))) && !AllRefused(e.line)
  {
    assert !RefusedIn(Asked(l, "").asked, 0);
  }

  /** The second identity fails three times and is given up; the first is refused. */
  lemma FailingThenRefused(out: Outside, l: Line, c: Clock)
    requires l == Line(k => if k < 3 then Transient("dead proxy") else Refused("429"), true, [false, false], 1, [], 0, {})
    requires (forall k :: !out.late(k)) && (forall k :: !out.interrupted(k))
    ensures var e := Fetch(out, l, c, "", false, 0);
      e.result == Stopped(Stop(Blocked, EveryIdentityRefused("429"))) && !AllRefused(e.line)
  {
    var one, two := Asked(l, ""), Asked(Asked(l, ""), "");
    var c1 := Slept(Looked(c.(pace := Slower(c.pace))));
    var c2 := Slept(Looked(c1.(pace := Slower(c1.pace))));
    assert OneRequest(out, l, c, "", false, 0) == Again(one, c1, false, 1);
    assert OneRequest(out, one, c1, "", false, 1) == Again(two, c2, false, 2);
    FailedThenRefused(out, two, c2);
  }

  /** The third failure in a row gives the second identity up, and the first is then refused. */
  lemma FailedThenRefused(out: Outside, l: Line, c: Clock)
    requires l.rotating && l.blocked == [false, false] && l.cur == 1 && |l.asked| == 2 && l.dropped == {}
    requires forall k :: 0 <= k < 2 ==> l.asked[k].answer == Transient("dead proxy")
    requires l.answers(2) == Transient("dead proxy") && l.answers(3) == Refused("429")
    requires forall k :: !out.late(k)
    ensures var e := Fetch(out, l, c, "", false, 2);
      e.result == Stopped(Stop(Blocked, EveryIdentityRefused("429"))) && !AllRefused(e.line)
  {
    var d := Looked(c.(pace := Slower(c.pace)));
    var t := Rotated(Asked(l, ""), true);
    assert t.blocked == [false, true] && t.cur == 0 && |t.asked| == 3;
    assert OneRequest(out, l, c, "", false, 2) == Again(t, d, true, 0);
    var u := Rotated(Asked(t, ""), false);
    RotationUsesOne(Asked(t, ""), false);
    assert u.blocked == [true, true];
    assert !RefusedIn(u.asked, 1);
  }

  // ---------------------------------------------------------------------------------------------
  // One stage
  // ---------------------------------------------------------------------------------------------

  /** Where pagination has got to: the pages read since the last restart, and those read before it. */
  datatype Progress = Progress(token: Token, seen: set<Token>, earlier: seq<Turn>, chain: seq<Turn>, restarts: nat)

  const START := Progress("", {}, [], [], 0)

  function Turns(p: Progress): seq<Turn> {
    p.earlier + p.chain
  }

  /** Everything the pages read carried, in order. */
  function Reviews(turns: seq<Turn>): seq<Review> {
    if turns == [] then [] else Reviews(turns[..|turns| - 1]) + turns[|turns| - 1].page.reviews
  }

  /** How many rows a collection that started without inline reviews holds. */
  function Held(cap: nat, s: seq<Review>): nat {
    Min(cap, |NewIds({}, s)|)
  }

  datatype StageEnd = StageEnd(line: Line, clock: Clock, progress: Progress, outcome: Outcome)

  /** One round of a stage: on to the next request, or the end. */
  datatype Round = On(line: Line, clock: Clock, progress: Progress, budget: nat) | Ended(end: StageEnd)

  function ReadOn(p: Progress, page: Page): Progress {
    p.(chain := p.chain + [Turn(p.token, page)])
  }

  /** A page got is kept; then the cap, the end of the listing, or the pause before the next page. */
  function AfterPage(out: Outside, cap: nat, l: Line, c: Clock, p: Progress, budget: nat, page: Page): Round {
    var q := ReadOn(p, page);
    if Held(cap, Reviews(Turns(q))) >= cap then Ended(StageEnd(l, c, q, Stop(Cap, NoDetail)))
    else if page.next == "" || page.next in p.seen then Ended(StageEnd(l, c, q, Stop(Exhausted, NoDetail)))
    else
      var on := q.(token := page.next, seen := p.seen + {page.next});
      if out.interrupted(c.sleeps) then Ended(StageEnd(l, Slept(c), on, Stop(Budget, NoDetail)))
      else On(l, Slept(c), on, budget)
  }

  /** From the first page again, as the identity in use; what was read stays collected. */
  function Restarted(p: Progress): Progress {
    Progress("", {}, Turns(p), [], p.restarts + 1)
  }

  /** A fresh identity that cannot carry on from the token reads the listing from the start, once. */
  function AfterFailure(out: Outside, l: Line, c: Clock, p: Progress, budget: nat, failure: Outcome): Round {
    if failure.afterRotation && p.token != "" && p.restarts == 0 then
      var d := c.(ids := c.ids + 1);
      if out.idFails(c.ids) then Ended(StageEnd(l, d, p, failure))
      else On(l, d, Restarted(p), budget + |Turns(p)|)
    else Ended(StageEnd(l, c, p, failure))
  }

  datatype Guarded = Guarded(clock: Clock, stop: Option<Outcome>)

  /** Before a page is asked for: the deadline, the page budget, the page's URL. */
  function BeforeRequest(out: Outside, c: Clock, p: Progress, budget: nat): Guarded {
    var d := Looked(c);
    if out.late(c.looks) then Guarded(d, Some(Stop(Budget, NoDetail)))
    else if |Turns(p)| >= budget then Guarded(d, Some(Stop(Exhausted, PageBudgetReached)))
    else
      var u := d.(urls := d.urls + 1);
      match out.urlError(c.urls)
      case Some(why) => Guarded(u, Some(Stop(Failed, Said(why))))
      case None => Guarded(u, None)
  }

  /** What the answers to one page lead to. */
  function AfterFetch(out: Outside, cap: nat, e: FetchEnd, p: Progress, budget: nat): Round {
    match e.result
    case Got(page) => AfterPage(out, cap, e.line, e.clock, p, budget, page)
    case Stopped(o) => AfterFailure(out, e.line, e.clock, p, budget, o)
  }

  function OneRound(out: Outside, cap: nat, l: Line, c: Clock, p: Progress, budget: nat): Round
    requires Usable(l)
  {
    var g := BeforeRequest(out, c, p, budget);
    match g.stop
    case Some(o) => Ended(StageEnd(l, g.clock, p, o))
    case None => AfterFetch(out, cap, Fetch(out, l, g.clock, p.token, false, 0), p, budget)
  }

  /** Going on uses up the restart, or a page of the budget. */
  lemma OnUsesUp(out: Outside, cap: nat, l: Line, c: Clock, p: Progress, budget: nat)
    requires Usable(l)
    ensures var round := OneRound(out, cap, l, c, p, budget);
      round.On? ==>
        && Usable(round.line)
        && ((p.restarts == 0 && round.progress == Restarted(p) && round.budget == budget + |Turns(p)| && |Turns(p)| < budget)
           || (round.progress.restarts == p.restarts && round.budget == budget
               && |Turns(p)| < |Turns(round.progress)| == |Turns(p)| + 1 <= budget))
  {
  }

  /** Page through the listing on one route, from wherever pagination has got to. */
  function RunStage(out: Outside, cap: nat, l: Line, c: Clock, p: Progress, budget: nat): StageEnd
    requires Usable(l)
    decreases if p.restarts == 0 then 1 else 0, if |Turns(p)| < budget then budget - |Turns(p)| else 0
  {
    OnUsesUp(out, cap, l, c, p, budget);
    match OneRound(out, cap, l, c, p, budget)
    case Ended(end) => end
    case On(line, clock, progress, more) => RunStage(out, cap, line, clock, progress, more)
  }

  // ---------------------------------------------------------------------------------------------
  // The chain of pages read
  // ---------------------------------------------------------------------------------------------

  /** Read in order, each page naming the next: from the empty token, and no token twice. */
  ghost predicate Linked(chain: seq<Turn>) {
    && (chain != [] ==> chain[0].token == "")
    && (forall i :: 0 <= i < |chain| - 1 ==> chain[i].page.next == chain[i + 1].token)
    && (forall i, j :: 0 <= i < j < |chain| ==> chain[i].token != chain[j].token)
  }

  ghost predicate ReadAlready(chain: seq<Turn>, token: Token) {
    exists i :: 0 <= i < |chain| && chain[i].token == token
  }

  /** A linked chain whose last page leads nowhere new. */
  ghost predicate WholeChain(chain: seq<Turn>) {
    && chain != [] && Linked(chain)
    && var next := chain[|chain| - 1].page.next; next == "" || ReadAlready(chain, next)
  }

  /** Ready to ask for the page at the token: a linked chain, not whole, that leads there. */
  ghost predicate AtHead(p: Progress) {
    && Linked(p.chain)
    && !ReadAlready(p.chain, p.token)
    && (p.chain == [] <==> p.token == "")
    && (p.chain != [] ==> p.token == p.chain[|p.chain| - 1].page.next)
    && (forall t :: t in p.seen <==> t != "" && (ReadAlready(p.chain, t) || t == p.token))
  }

  lemma HeadIsNotWhole(p: Progress)
    requires AtHead(p)
    ensures !WholeChain(p.chain)
  {
  }

  lemma ReadingOn(chain: seq<Turn>, turn: Turn)
    ensures forall t :: ReadAlready(chain + [turn], t) <==> ReadAlready(chain, t) || t == turn.token
  {
    var all := chain + [turn];
    forall t | ReadAlready(chain, t) || t == turn.token ensures ReadAlready(all, t) {
      if ReadAlready(chain, t) {
        var i :| 0 <= i < |chain| && chain[i].token == t;
        assert all[i].token == t;
      } else {
        assert all[|chain|].token == t;
      }
    }
  }

  /** With one more page the chain is still linked; it is whole, or leads on to a token not read. */
  lemma PageExtendsChain(p: Progress, page: Page)
    requires AtHead(p)
    ensures var q := ReadOn(p, page);
      && Linked(q.chain)
      && (WholeChain(q.chain) <==> page.next == "" || page.next in p.seen)
      && (page.next != "" && page.next !in p.seen ==> AtHead(q.(token := page.next, seen := p.seen + {page.next})))
  {
    ReadingOn(p.chain, Turn(p.token, page));
  }

  /** Where pagination ends: the chain is linked, whole exactly when it ended cleanly, below the cap. */
  ghost predicate EndsChain(cap: nat, p: Progress, o: Outcome) {
    && Linked(p.chain)
    && (o == Stop(Exhausted, NoDetail) <==> WholeChain(p.chain) && Held(cap, Reviews(Turns(p))) < cap)
    && (o.reason.Blocked? || o.reason.Failed? ==> AtHead(p))
    && (o.reason.Cap? <==> Held(cap, Reviews(Turns(p))) >= cap)
  }

  /** Ready to read on, with room for more. */
  ghost predicate MayReadOn(cap: nat, p: Progress) {
    AtHead(p) && Held(cap, Reviews(Turns(p))) < cap
  }

  ghost predicate RoundChain(cap: nat, round: Round) {
    match round
    case On(_, _, progress, _) => MayReadOn(cap, progress)
    case Ended(end) => EndsChain(cap, end.progress, end.outcome)
  }

  lemma PageKeepsChain(out: Outside, cap: nat, l: Line, c: Clock, p: Progress, budget: nat, page: Page)
    requires AtHead(p)
    ensures RoundChain(cap, AfterPage(out, cap, l, c, p, budget, page))
  {
    PageExtendsChain(p, page);
    var q := ReadOn(p, page);
    var on := q.(token := page.next, seen := p.seen + {page.next});
    assert Turns(on) == Turns(q);
    if page.next != "" && page.next !in p.seen {
      HeadIsNotWhole(on);
    }
  }

  /** Stopped short of the end of the listing. */
  predicate StopsShort(o: Outcome) {
    !o.reason.Cap? && o != Stop(Exhausted, NoDetail)
  }

  lemma StoppingKeepsChain(cap: nat, p: Progress, o: Outcome)
    requires MayReadOn(cap, p) && StopsShort(o)
    ensures EndsChain(cap, p, o)
  {
    HeadIsNotWhole(p);
  }

  lemma FailureKeepsChain(out: Outside, cap: nat, l: Line, c: Clock, p: Progress, budget: nat, failure: Outcome)
    requires MayReadOn(cap, p) && StopsShort(failure)
    ensures RoundChain(cap, AfterFailure(out, l, c, p, budget, failure))
  {
    var round := AfterFailure(out, l, c, p, budget, failure);
    if round.Ended? {
      StoppingKeepsChain(cap, p, failure);
    } else {
      assert Turns(Restarted(p)) == Turns(p);
    }
  }

  lemma GuardStopsShort(out: Outside, c: Clock, p: Progress, budget: nat)
    ensures var stop := BeforeRequest(out, c, p, budget).stop;
      stop.Some? ==> StopsShort(stop.value) && !stop.value.afterRotation
  {
  }

  lemma FetchStopsShort(out: Outside, l: Line, c: Clock, token: Token)
    requires Usable(l)
    ensures var e := Fetch(out, l, c, token, false, 0);
      e.result.Stopped? ==> StopsShort(e.result.outcome)
  {
    FetchEndsOnTheAnswer(out, l, c, token, false, 0);
  }

  lemma RoundKeepsChain(out: Outside, cap: nat, l: Line, c: Clock, p: Progress, budget: nat)
    requires Usable(l) && MayReadOn(cap, p)
    ensures RoundChain(cap, OneRound(out, cap, l, c, p, budget))
  {
    var g := BeforeRequest(out, c, p, budget);
    GuardStopsShort(out, c, p, budget);
    if g.stop.Some? {
      StoppingKeepsChain(cap, p, g.stop.value);
    } else {
      var e := Fetch(out, l, g.clock, p.token, false, 0);
      FetchStopsShort(out, l, g.clock, p.token);
      match e.result
      case Got(page) => PageKeepsChain(out, cap, e.line, e.clock, p, budget, page);
      case Stopped(o) => FailureKeepsChain(out, cap, e.line, e.clock, p, budget, o);
    }
  }

  lemma {:induction false} StageKeepsChain(out: Outside, cap: nat, l: Line, c: Clock, p: Progress, budget: nat)
    requires Usable(l) && MayReadOn(cap, p)
    ensures var e := RunStage(out, cap, l, c, p, budget);
      EndsChain(cap, e.progress, e.outcome)
    decreases if p.restarts == 0 then 1 else 0, if |Turns(p)| < budget then budget - |Turns(p)| else 0
  {
    OnUsesUp(out, cap, l, c, p, budget);
    RoundKeepsChain(out, cap, l, c, p, budget);
    var round := OneRound(out, cap, l, c, p, budget);
    if round.On? {
      StageKeepsChain(out, cap, round.line, round.clock, round.progress, round.budget);
    }
  }

  // ---------------------------------------------------------------------------------------------
  // How much a stage reads, and what it asks
  // ---------------------------------------------------------------------------------------------

  /** At most `budget` pages without a restart, and fewer than twice that with one. */
  ghost predicate Within(budget: nat, p: Progress) {
    p.restarts <= 1 && |Turns(p)| <= if p.restarts == 0 then budget else 2 * budget - 1
  }

  /** `most` is the page budget of the stage, `more` what it has grown to. */
  lemma {:induction false} StageIsBounded(out: Outside, cap: nat, l: Line, c: Clock, p: Progress, more: nat, most: nat)
    requires Usable(l) && most >= 1 && Within(most, p)
    requires most <= more && if p.restarts == 0 then more == most else more <= 2 * most - 1
    ensures var e := RunStage(out, cap, l, c, p, more);
      Within(most, e.progress) && p.restarts <= e.progress.restarts && |Turns(p)| <= |Turns(e.progress)|
    decreases if p.restarts == 0 then 1 else 0, if |Turns(p)| < more then more - |Turns(p)| else 0
  {
    OnUsesUp(out, cap, l, c, p, more);
    EndAddsAPageAtMost(out, cap, l, c, p, more);
    var round := OneRound(out, cap, l, c, p, more);
    if round.On? {
      StageIsBounded(out, cap, round.line, round.clock, round.progress, round.budget, most);
    }
  }

  lemma EndAddsAPageAtMost(out: Outside, cap: nat, l: Line, c: Clock, p: Progress, budget: nat)
    requires Usable(l)
    ensures var round := OneRound(out, cap, l, c, p, budget);
      round.Ended? ==>
        && round.end.progress.restarts == p.restarts && round.end.progress.earlier == p.earlier
        && (round.end.progress == p || (|Turns(p)| < budget && |Turns(round.end.progress)| == |Turns(p)| + 1))
        && (round.end.outcome == Stop(Exhausted, PageBudgetReached) ==> round.end.progress == p && |Turns(p)| >= budget)
  {
    var g := BeforeRequest(out, c, p, budget);
    if g.stop.None? {
      FetchStopsOnItsOwn(out, l, g.clock, p.token);
    }
  }

  lemma FetchStopsOnItsOwn(out: Outside, l: Line, c: Clock, token: Token)
    requires Usable(l)
    ensures var e := Fetch(out, l, c, token, false, 0);
      e.result.Stopped? ==>
        !e.result.outcome.reason.Exhausted? && !e.result.outcome.reason.Cap? && !e.result.outcome.reason.NotStopped?
  {
    FetchEndsOnTheAnswer(out, l, c, token, false, 0);
  }

  /** A restart keeps what was read as read earlier; without one that does not change. */
  lemma {:induction false} EarlierIsKept(out: Outside, cap: nat, l: Line, c: Clock, p: Progress, budget: nat)
    requires Usable(l)
    ensures var e := RunStage(out, cap, l, c, p, budget);
      && p.restarts <= e.progress.restarts <= Max(1, p.restarts)
      && (e.progress.restarts == p.restarts ==> e.progress.earlier == p.earlier)
    decreases if p.restarts == 0 then 1 else 0, if |Turns(p)| < budget then budget - |Turns(p)| else 0
  {
    OnUsesUp(out, cap, l, c, p, budget);
    EndAddsAPageAtMost(out, cap, l, c, p, budget);
    OnKeepsEarlier(out, cap, l, c, p, budget);
    var round := OneRound(out, cap, l, c, p, budget);
    if round.On? {
      EarlierIsKept(out, cap, round.line, round.clock, round.progress, round.budget);
    }
  }

  /** Stopped on the page budget, a stage has read a whole budget of pages, counted anew after its restart. */
  lemma {:induction false} BudgetEndHasReadIt(out: Outside, cap: nat, l: Line, c: Clock, p: Progress, budget: nat)
    requires Usable(l)
    ensures var e := RunStage(out, cap, l, c, p, budget);
      e.outcome == Stop(Exhausted, PageBudgetReached) ==>
        |Turns(e.progress)| >= budget && (e.progress.restarts == p.restarts + 1 ==> |e.progress.chain| >= budget)
    decreases if p.restarts == 0 then 1 else 0, if |Turns(p)| < budget then budget - |Turns(p)| else 0
  {
    OnUsesUp(out, cap, l, c, p, budget);
    EndAddsAPageAtMost(out, cap, l, c, p, budget);
    var round := OneRound(out, cap, l, c, p, budget);
    if round.On? {
      EarlierIsKept(out, cap, round.line, round.clock, round.progress, round.budget);
      BudgetEndHasReadIt(out, cap, round.line, round.clock, round.progress, round.budget);
    }
  }

  lemma OnKeepsEarlier(out: Outside, cap: nat, l: Line, c: Clock, p: Progress, budget: nat)
    requires Usable(l)
    ensures var round := OneRound(out, cap, l, c, p, budget);
      round.On? && round.progress.restarts == p.restarts ==> round.progress.earlier == p.earlier
  {
  }

  /** The pages read from p to q are those the route's requests were answered with meanwhile. */
  ghost predicate ReadsAnswers(l: Line, t: Line, p: Progress, q: Progress) {
    && Turns(p) <= Turns(q)
    && PagesRead(t.asked) == PagesRead(l.asked) + Turns(q)[|Turns(p)|..]
  }

  ghost predicate RoundReads(l: Line, p: Progress, round: Round) {
    match round
    case On(line, _, progress, _) => Kept(l, line) && InOrder(line) && ReadsAnswers(l, line, p, progress)
    case Ended(end) => Kept(l, end.line) && ReadsAnswers(l, end.line, p, end.progress)
  }

  lemma PageIsRead(out: Outside, cap: nat, l: Line, e: FetchEnd, p: Progress, budget: nat)
    requires Kept(l, e.line) && InOrder(e.line) && e.result.Got?
    requires PagesRead(e.line.asked) == PagesRead(l.asked) + [Turn(p.token, e.result.page)]
    ensures RoundReads(l, p, AfterFetch(out, cap, e, p, budget))
  {
    assert Turns(ReadOn(p, e.result.page)) == Turns(p) + [Turn(p.token, e.result.page)];
  }

  lemma FailureReadsNothing(out: Outside, cap: nat, l: Line, e: FetchEnd, p: Progress, budget: nat)
    requires Kept(l, e.line) && e.result.Stopped? && (e.result.outcome.afterRotation ==> InOrder(e.line))
    requires PagesRead(e.line.asked) == PagesRead(l.asked)
    ensures RoundReads(l, p, AfterFetch(out, cap, e, p, budget))
  {
    assert Turns(Restarted(p)) == Turns(p);
  }

  lemma FetchedIsRead(out: Outside, cap: nat, l: Line, c: Clock, p: Progress, budget: nat)
    requires InOrder(l)
    ensures RoundReads(l, p, AfterFetch(out, cap, Fetch(out, l, c, p.token, false, 0), p, budget))
  {
    var e := Fetch(out, l, c, p.token, false, 0);
    FetchKeepsLine(out, l, c, p.token, false, 0);
    FetchEndsOnTheAnswer(out, l, c, p.token, false, 0);
    if e.result.Got? {
      PageIsRead(out, cap, l, e, p, budget);
    } else {
      FailureReadsNothing(out, cap, l, e, p, budget);
    }
  }

  lemma {:induction false} StageReadsAnswers(out: Outside, cap: nat, l: Line, c: Clock, p: Progress, budget: nat)
    requires InOrder(l)
    ensures var e := RunStage(out, cap, l, c, p, budget);
      Kept(l, e.line) && ReadsAnswers(l, e.line, p, e.progress)
    decreases if p.restarts == 0 then 1 else 0, if |Turns(p)| < budget then budget - |Turns(p)| else 0
  {
    OnUsesUp(out, cap, l, c, p, budget);
    InOrderIsKept(l);
    var g := BeforeRequest(out, c, p, budget);
    if g.stop.None? {
      FetchedIsRead(out, cap, l, g.clock, p, budget);
    }
    var round := OneRound(out, cap, l, c, p, budget);
    if round.On? {
      StageReadsAnswers(out, cap, round.line, round.clock, round.progress, round.budget);
      var e := RunStage(out, cap, l, c, p, budget);
      ReadsOnAndOn(l, round.line, e.line, p, round.progress, e.progress);
    }
  }

  lemma ReadsOnAndOn(l: Line, t: Line, u: Line, p: Progress, q: Progress, r: Progress)
    requires ReadsAnswers(l, t, p, q) && ReadsAnswers(t, u, q, r)
    ensures ReadsAnswers(l, u, p, r)
  {
    var more := Turns(r)[|Turns(p)|..];
    assert more == Turns(q)[|Turns(p)|..] + Turns(r)[|Turns(q)|..];
  }

  /**
   * How a stage ended can be read off what the route answered last: refused exactly when that was a
   * refusal, unreadable only when that was, and a clean or full end right after a page.
   */
  ghost predicate StageTells(l: Line, e: StageEnd) {
    && l.asked <= e.line.asked
    && (e.outcome.reason.Blocked? <==> |e.line.asked| > |l.asked| && Last(e.line).Refused?)
    && (e.outcome.reason.ParseError? ==> |e.line.asked| > |l.asked| && Last(e.line).Unreadable?)
    && (e.outcome.reason.Cap? || e.outcome == Stop(Exhausted, NoDetail) ==> |e.line.asked| > |l.asked| && Last(e.line).Read?)
    && !e.outcome.reason.NotStopped?
  }

  function Last(l: Line): Answer
    requires l.asked != []
  {
    l.asked[|l.asked| - 1].answer
  }

  ghost predicate RoundTells(l: Line, round: Round) {
    match round
    case On(line, _, _, _) => l.asked < line.asked && !Last(line).Refused?
    case Ended(end) => StageTells(l, end)
  }

  lemma PageTells(out: Outside, cap: nat, l: Line, e: FetchEnd, p: Progress, budget: nat)
    requires l.asked < e.line.asked && e.result.Got? && Last(e.line).Read?
    ensures RoundTells(l, AfterFetch(out, cap, e, p, budget))
  {
  }

  lemma FailureTells(out: Outside, cap: nat, l: Line, e: FetchEnd, p: Progress, budget: nat, newcomer: bool)
    requires l.asked < e.line.asked && e.result.Stopped? && EndsOn(Last(e.line), l.rotating, newcomer, e.result)
    ensures RoundTells(l, AfterFetch(out, cap, e, p, budget))
  {
  }

  lemma OneRoundTells(out: Outside, cap: nat, l: Line, c: Clock, p: Progress, budget: nat)
    requires Usable(l)
    ensures RoundTells(l, OneRound(out, cap, l, c, p, budget))
  {
    var g := BeforeRequest(out, c, p, budget);
    if g.stop.None? {
      var e := Fetch(out, l, g.clock, p.token, false, 0);
      FetchEndsOnTheAnswer(out, l, g.clock, p.token, false, 0);
      if e.result.Got? {
        PageTells(out, cap, l, e, p, budget);
      } else {
        FailureTells(out, cap, l, e, p, budget, e.line.rotations > l.rotations);
      }
    }
  }

  lemma {:induction false} StageTellsItsEnd(out: Outside, cap: nat, l: Line, c: Clock, p: Progress, budget: nat)
    requires Usable(l)
    ensures StageTells(l, RunStage(out, cap, l, c, p, budget))
    decreases if p.restarts == 0 then 1 else 0, if |Turns(p)| < budget then budget - |Turns(p)| else 0
  {
    OnUsesUp(out, cap, l, c, p, budget);
    OneRoundTells(out, cap, l, c, p, budget);
    var round := OneRound(out, cap, l, c, p, budget);
    if round.On? {
      StageTellsItsEnd(out, cap, round.line, round.clock, round.progress, round.budget);
    }
  }

  /** A refusal ends the stage where it ended the page. */
  lemma RefusalEndsTheStage(out: Outside, cap: nat, l: Line, c: Clock, p: Progress, budget: nat)
    requires Usable(l)
    ensures var round, g := OneRound(out, cap, l, c, p, budget), BeforeRequest(out, c, p, budget);
      round.Ended? && round.end.outcome.reason.Blocked? ==>
        && g.stop.None?
        && var e := Fetch(out, l, g.clock, p.token, false, 0);
           e.result == Stopped(round.end.outcome) && e.line == round.end.line && e.clock == round.end.clock
  {
    var g := BeforeRequest(out, c, p, budget);
    if g.stop.None? {
      FetchEndsOnTheAnswer(out, l, g.clock, p.token, false, 0);
    }
  }

  lemma {:induction false} StageRefusedExactlyWhen(out: Outside, cap: nat, l: Line, c: Clock, p: Progress, budget: nat)
    requires InOrder(l) && l.rotating
    ensures var e := RunStage(out, cap, l, c, p, budget);
      e.outcome.reason.Blocked? ==> (AllRefused(e.line) <==> DetailHolds(out, e.line, e.clock))
    decreases if p.restarts == 0 then 1 else 0, if |Turns(p)| < budget then budget - |Turns(p)| else 0
  {
    OnUsesUp(out, cap, l, c, p, budget);
    RefusalEndsTheStage(out, cap, l, c, p, budget);
    var g := BeforeRequest(out, c, p, budget);
    if g.stop.None? {
      FetchedIsRead(out, cap, l, g.clock, p, budget);
      EveryIdentityRefusedExactlyWhen(out, l, g.clock, p.token, false, 0);
    }
    var round := OneRound(out, cap, l, c, p, budget);
    if round.On? {
      StageRefusedExactlyWhen(out, cap, round.line, round.clock, round.progress, round.budget);
    }
  }

  // ---------------------------------------------------------------------------------------------
  // The request stages in turn
  // ---------------------------------------------------------------------------------------------

  /** How many pages of 20 a pagination may take for a place reporting `count` reviews. */
  function ReviewPageBudget(count: int, limit: int): (pages: nat)
    requires limit > 0
    ensures 1 <= pages <= Max(limit / 20, 1)
    ensures count <= 0 ==> pages == Max(limit / 20, 1)
    ensures count > 0 ==> pages == Max(limit / 20, 1) || 20 * pages >= count + 60
    ensures count > 0 ==> 20 * pages <= count + 59 + Max(20, (count + 19) / 20)
  {
    var ceiling := if limit / 20 < 1 then 1 else limit / 20;
    if count <= 0 then ceiling
    else
      var need := (count + 19) / 20;
      var slack := if need / 20 < 1 then 1 else need / 20;
      if need + 2 + slack > ceiling then ceiling else need + 2 + slack
  }

  datatype RequestsEnd = RequestsEnd(
    browser: Option<Line>, http: Option<Line>, clock: Clock, progress: Progress,
    last: Outcome, lastStage: Stage, stages: seq<Stage>)

  /** A first end that leaves nothing for the second route to do. */
  predicate EndsTheRun(first: StopReason) {
    first.Exhausted? || first.Cap? || first.Budget? || first.ParseError?
  }

  predicate MayBeUsed(l: Option<Line>) {
    l.Some? ==> Usable(l.value)
  }

  function BrowserStage(out: Outside, cap: nat, browser: Option<Line>, http: Option<Line>, c: Clock, budget: nat): RequestsEnd
    requires MayBeUsed(browser)
  {
    match browser
    case None => RequestsEnd(browser, http, c, START, Stop(NotStopped, NoDetail), NoStage, [])
    case Some(l) =>
      var e := RunStage(out, cap, l, c, START, budget);
      RequestsEnd(Some(e.line), http, e.clock, e.progress, e.outcome, RpcBrowser, [RpcBrowser])
  }

  function HttpStage(out: Outside, cap: nat, l: Line, first: RequestsEnd, budget: nat): RequestsEnd
    requires Usable(l)
  {
    var e := RunStage(out, cap, l, first.clock, first.progress, budget);
    RequestsEnd(first.browser, Some(e.line), e.clock, e.progress, e.outcome, RpcHttp, first.stages + [RpcHttp])
  }

  /** The browser's own requests, and when they were refused or failed, the proxies' from the same page on. */
  function RunStages(out: Outside, cap: nat, browser: Option<Line>, http: Option<Line>, c: Clock, budget: nat): RequestsEnd
    requires MayBeUsed(browser) && MayBeUsed(http)
  {
    var first := BrowserStage(out, cap, browser, http, c, budget);
    if http.None? || EndsTheRun(first.last.reason) then first
    else HttpStage(out, cap, http.value, first, budget)
  }

  function AskedOn(l: Option<Line>): seq<Request> {
    if l.Some? then l.value.asked else []
  }

  ghost predicate Fresh(l: Option<Line>) {
    l.Some? ==> Unused(l.value)
  }

  /** How the request stages can end. */
  predicate RpcEnd(r: StopReason) {
    r.Budget? || r.Exhausted? || r.Failed? || r.Blocked? || r.ParseError? || r.Cap?
  }

  /** The listing was read through. */
  predicate ReadThrough(o: Outcome) {
    o == Stop(Exhausted, NoDetail)
  }

  /** The page budget was used up, which is told as exhausted too. */
  predicate OutOfPages(o: Outcome) {
    o == Stop(Exhausted, PageBudgetReached)
  }

  predicate Ending(o: Outcome) {
    && RpcEnd(o.reason)
    && (o.reason.Exhausted? ==> ReadThrough(o) || OutOfPages(o))
    && (o.afterRotation ==> o.reason.ParseError? || o.reason.Failed?)
  }

  lemma NothingAsked(l: Option<Line>)
    requires Fresh(l)
    ensures AskedOn(l) == [] && PagesRead(AskedOn(l)) == []
    ensures l.Some? ==> InOrder(l.value)
  {
    if l.Some? {
      UnusedIsInOrder(l.value);
    }
  }

  lemma NothingHeldAtFirst(cap: nat)
    requires cap > 0
    ensures MayReadOn(cap, START) && Turns(START) == []
  {
    assert Reviews([]) == [];
  }

  // Each promise of the request stages, first for the browser's and then for both.

  lemma BrowserKeepsChain(out: Outside, cap: nat, browser: Option<Line>, http: Option<Line>, c: Clock, budget: nat)
    requires cap > 0 && MayBeUsed(browser)
    ensures var r := BrowserStage(out, cap, browser, http, c, budget);
      && EndsChain(cap, r.progress, r.last)
      && (!EndsTheRun(r.last.reason) ==> MayReadOn(cap, r.progress))
  {
    NothingHeldAtFirst(cap);
    HeadIsNotWhole(START);
    if browser.Some? {
      StageKeepsChain(out, cap, browser.value, c, START, budget);
      StageStops(out, cap, browser.value, c, START, budget);
    }
  }

  /** The pages of both stages since the last restart are one chain, whole exactly when the last ended cleanly. */
  lemma StagesKeepChain(out: Outside, cap: nat, browser: Option<Line>, http: Option<Line>, c: Clock, budget: nat)
    requires cap > 0 && MayBeUsed(browser) && MayBeUsed(http)
    ensures var r := RunStages(out, cap, browser, http, c, budget);
      EndsChain(cap, r.progress, r.last)
  {
    BrowserKeepsChain(out, cap, browser, http, c, budget);
    var first := BrowserStage(out, cap, browser, http, c, budget);
    if http.Some? && !EndsTheRun(first.last.reason) {
      StageKeepsChain(out, cap, http.value, first.clock, first.progress, budget);
    }
  }

  /** Together the stages restart once at most, and read fewer than twice the budget of one. */
  lemma StagesAreBounded(out: Outside, cap: nat, browser: Option<Line>, http: Option<Line>, c: Clock, budget: nat)
    requires budget > 0 && MayBeUsed(browser) && MayBeUsed(http)
    ensures Within(budget, RunStages(out, cap, browser, http, c, budget).progress)
  {
    var first := BrowserStage(out, cap, browser, http, c, budget);
    if browser.Some? {
      StageIsBounded(out, cap, browser.value, c, START, budget, budget);
    }
    if http.Some? && !EndsTheRun(first.last.reason) {
      StageIsBounded(out, cap, http.value, first.clock, first.progress, budget, budget);
    }
  }

  /** Requests that end on the page budget have read the whole of it. */
  lemma StagesReadTheBudget(out: Outside, cap: nat, browser: Option<Line>, http: Option<Line>, c: Clock, budget: nat)
    requires MayBeUsed(browser) && MayBeUsed(http)
    ensures var r := RunStages(out, cap, browser, http, c, budget);
      OutOfPages(r.last) ==> |Turns(r.progress)| >= budget
  {
    var first := BrowserStage(out, cap, browser, http, c, budget);
    if browser.Some? {
      BudgetEndHasReadIt(out, cap, browser.value, c, START, budget);
    }
    if http.Some? && !EndsTheRun(first.last.reason) {
      BudgetEndHasReadIt(out, cap, http.value, first.clock, first.progress, budget);
    }
  }

  /** The same route later, where there is one. */
  ghost predicate KeptIf(l: Option<Line>, t: Option<Line>) {
    (l.Some? <==> t.Some?) && (l.Some? ==> Kept(l.value, t.value))
  }

  lemma UnusedIsKept(l: Option<Line>)
    requires Fresh(l)
    ensures KeptIf(l, l)
  {
    if l.Some? {
      UnusedIsInOrder(l.value);
      InOrderIsKept(l.value);
    }
  }

  /** The routes after the stages: their records only longer and honest, no request made as a refused identity. */
  lemma StagesKeepLines(out: Outside, cap: nat, browser: Option<Line>, http: Option<Line>, c: Clock, budget: nat)
    requires Fresh(browser) && Fresh(http)
    ensures var r := RunStages(out, cap, browser, http, c, budget);
      KeptIf(browser, r.browser) && KeptIf(http, r.http)
  {
    NothingAsked(browser);
    NothingAsked(http);
    UnusedIsKept(browser);
    UnusedIsKept(http);
    var first := BrowserStage(out, cap, browser, http, c, budget);
    if browser.Some? {
      StageReadsAnswers(out, cap, browser.value, c, START, budget);
    }
    if http.Some? && !EndsTheRun(first.last.reason) {
      StageReadsAnswers(out, cap, http.value, first.clock, first.progress, budget);
    }
  }

  lemma BrowserReadsAnswers(out: Outside, cap: nat, browser: Option<Line>, http: Option<Line>, c: Clock, budget: nat)
    requires Fresh(browser)
    ensures var r := BrowserStage(out, cap, browser, http, c, budget);
      Turns(r.progress) == PagesRead(AskedOn(r.browser)) && r.http == http
  {
    NothingAsked(browser);
    if browser.Some? {
      StageReadsAnswers(out, cap, browser.value, c, START, budget);
    }
  }

  lemma HttpReadsAnswers(out: Outside, cap: nat, l: Line, first: RequestsEnd, budget: nat)
    requires Unused(l)
    ensures var r := HttpStage(out, cap, l, first, budget);
      r.browser == first.browser && Turns(r.progress) == Turns(first.progress) + PagesRead(AskedOn(r.http))
  {
    NothingAsked(Some(l));
    StageReadsAnswers(out, cap, l, first.clock, first.progress, budget);
    SecondReadsOn(first, RunStage(out, cap, l, first.clock, first.progress, budget), l);
  }

  lemma SecondReadsOn(first: RequestsEnd, e: StageEnd, l: Line)
    requires ReadsAnswers(l, e.line, first.progress, e.progress) && PagesRead(l.asked) == []
    ensures Turns(e.progress) == Turns(first.progress) + PagesRead(e.line.asked)
  {
  }

  /** Every page either stage read is one its route was answered with, and every such page was read. */
  lemma StagesReadAnswers(out: Outside, cap: nat, browser: Option<Line>, http: Option<Line>, c: Clock, budget: nat)
    requires Fresh(browser) && Fresh(http)
    ensures var r := RunStages(out, cap, browser, http, c, budget);
      Turns(r.progress) == PagesRead(AskedOn(r.browser)) + PagesRead(AskedOn(r.http))
  {
    BrowserReadsAnswers(out, cap, browser, http, c, budget);
    NothingAsked(http);
    var first := BrowserStage(out, cap, browser, http, c, budget);
    if http.Some? && !EndsTheRun(first.last.reason) {
      HttpReadsAnswers(out, cap, http.value, first, budget);
    }
  }

  lemma BrowserRefusedExactlyWhen(out: Outside, cap: nat, browser: Option<Line>, http: Option<Line>, c: Clock, budget: nat)
    requires Fresh(browser)
    ensures var r := BrowserStage(out, cap, browser, http, c, budget);
      r.last.reason.Blocked? ==>
        && r.browser.Some?
        && var l := r.browser.value;
           l.rotating ==> (AllRefused(l) <==> DetailHolds(out, l, r.clock))
  {
    NothingAsked(browser);
    if browser.Some? {
      var l := browser.value;
      StageReadsAnswers(out, cap, l, c, START, budget);
      if l.rotating {
        StageRefusedExactlyWhen(out, cap, l, c, START, budget);
      }
    }
  }

  lemma StagesRefusedExactlyWhen(out: Outside, cap: nat, browser: Option<Line>, http: Option<Line>, c: Clock, budget: nat)
    requires Fresh(browser) && Fresh(http)
    ensures var r := RunStages(out, cap, browser, http, c, budget);
      r.last.reason.Blocked? ==>
        && LastLine(r).Some?
        && var l := LastLine(r).value;
           l.rotating ==> (AllRefused(l) <==> DetailHolds(out, l, r.clock))
  {
    NothingAsked(http);
    BrowserRefusedExactlyWhen(out, cap, browser, http, c, budget);
    var first := BrowserStage(out, cap, browser, http, c, budget);
    if http.Some? && !EndsTheRun(first.last.reason) {
      StageReadsAnswers(out, cap, http.value, first.clock, first.progress, budget);
      if http.value.rotating {
        StageRefusedExactlyWhen(out, cap, http.value, first.clock, first.progress, budget);
      }
    }
  }

  lemma RoundStops(out: Outside, cap: nat, l: Line, c: Clock, p: Progress, budget: nat)
    requires Usable(l)
    ensures var round := OneRound(out, cap, l, c, p, budget);
      round.Ended? ==> Ending(round.end.outcome)
  {
    var g := BeforeRequest(out, c, p, budget);
    if g.stop.None? {
      FetchEnds(out, l, g.clock, p.token);
      AfterFetchEnds(out, cap, Fetch(out, l, g.clock, p.token, false, 0), p, budget);
    }
  }

  lemma FetchEnds(out: Outside, l: Line, c: Clock, token: Token)
    requires Usable(l)
    ensures var e := Fetch(out, l, c, token, false, 0);
      e.result.Stopped? ==> Ending(e.result.outcome)
  {
    FetchEndsOnTheAnswer(out, l, c, token, false, 0);
  }

  lemma AfterFetchEnds(out: Outside, cap: nat, e: FetchEnd, p: Progress, budget: nat)
    requires e.result.Stopped? ==> Ending(e.result.outcome)
    ensures var round := AfterFetch(out, cap, e, p, budget);
      round.Ended? ==> Ending(round.end.outcome)
  {
  }

  lemma {:induction false} StageStops(out: Outside, cap: nat, l: Line, c: Clock, p: Progress, budget: nat)
    requires Usable(l)
    ensures Ending(RunStage(out, cap, l, c, p, budget).outcome)
    decreases if p.restarts == 0 then 1 else 0, if |Turns(p)| < budget then budget - |Turns(p)| else 0
  {
    OnUsesUp(out, cap, l, c, p, budget);
    RoundStops(out, cap, l, c, p, budget);
    var round := OneRound(out, cap, l, c, p, budget);
    if round.On? {
      StageStops(out, cap, round.line, round.clock, round.progress, round.budget);
    }
  }

  /** No stage was run and none ended, or the last one run gave the reason. */
  lemma StagesEnd(out: Outside, cap: nat, browser: Option<Line>, http: Option<Line>, c: Clock, budget: nat)
    requires MayBeUsed(browser) && MayBeUsed(http)
    ensures var r := RunStages(out, cap, browser, http, c, budget);
      && (r.last.reason.NotStopped? <==> r.lastStage.NoStage?)
      && (r.last.reason.NotStopped? || Ending(r.last))
      && (r.lastStage.NoStage? || r.lastStage.RpcBrowser? || r.lastStage.RpcHttp?)
  {
    var first := BrowserStage(out, cap, browser, http, c, budget);
    if browser.Some? {
      StageStops(out, cap, browser.value, c, START, budget);
    }
    if http.Some? && !EndsTheRun(first.last.reason) {
      StageStops(out, cap, http.value, first.clock, first.progress, budget);
    }
  }

  // ---------------------------------------------------------------------------------------------
  // The run
  // ---------------------------------------------------------------------------------------------

  /**
   * `last` is how the requests ended, `outcome` how the run did and in which stage, `stream` everything
   * collected.
   */
  datatype Run = Run(
    requests: RequestsEnd, last: Outcome, stream: seq<Review>,
    outcome: Outcome, stage: Stage, stages: seq<Stage>, clock: Clock)

  /** Reviews are missing: below a known count, or, without one, when pagination did not come to an end. */
  predicate NeedMore(last: StopReason, reported: int, held: nat) {
    if reported > 0 then held < reported else !last.Exhausted?
  }

  /** Why and in which stage the run ended, whether the page was scrolled, and how often the clock was looked at. */
  datatype Conclusion = Conclusion(outcome: Outcome, stage: Stage, scrolled: bool, looks: nat)

  /** After the scroll: out of time, full, enough or pagination ended, or still as the requests ended. */
  function Judged(out: Outside, cap: nat, reported: int, last: Outcome, lastStage: Stage, held: nat, looks: nat): Conclusion {
    if out.late(looks) then Conclusion(Stop(Budget, NoDetail), Dom, true, looks + 1)
    else if held >= cap then Conclusion(Stop(Cap, NoDetail), Dom, true, looks + 1)
    else if (reported > 0 && held >= reported) || last.reason.Exhausted? then Conclusion(Stop(Exhausted, NoDetail), Dom, true, looks + 1)
    else Conclusion(last, lastStage, true, looks + 1)
  }

  /**
   * Does the page's own list have to make anything up, and is there time for it? `held` rows are held
   * before it, and `scrolled` would be after it, if there is a page.
   */
  function Conclude(out: Outside, cap: nat, reported: int, last: Outcome, lastStage: Stage, held: nat,
                    scrolled: Option<nat>, looks: nat): Conclusion
  {
    if last.reason.Cap? || last.reason.Budget? then Conclusion(last, lastStage, false, looks)
    else if !NeedMore(last.reason, reported, held) || scrolled.None? then Conclusion(last, lastStage, false, looks)
    else if out.late(looks) then Conclusion(last, lastStage, false, looks + 1)
    else Judged(out, cap, reported, last, lastStage, scrolled.value, looks + 1)
  }

  function LastOf(requests: RequestsEnd): Outcome {
    if requests.lastStage.NoStage? then Stop(Failed, NoReviewRoute) else requests.last
  }

  function HeldWith(cap: nat, read: seq<Review>, dom: Option<seq<Review>>): Option<nat> {
    if dom.Some? then Some(Held(cap, read + dom.value)) else None
  }

  /** The run its requests and the page make up. */
  function RunOf(requests: RequestsEnd, read: seq<Review>, dom: Option<seq<Review>>, k: Conclusion): Run {
    var cards := if k.scrolled && dom.Some? then dom.value else [];
    Run(requests, LastOf(requests), read + cards, k.outcome, k.stage,
        if k.scrolled then requests.stages + [Dom] else requests.stages,
        requests.clock.(looks := k.looks))
  }

  function Finished(out: Outside, cap: nat, reported: int, requests: RequestsEnd, dom: Option<seq<Review>>): Run {
    var read := Reviews(Turns(requests.progress));
    RunOf(requests, read, dom,
          Conclude(out, cap, reported, LastOf(requests), requests.lastStage, Held(cap, read), HeldWith(cap, read, dom),
                   requests.clock.looks))
  }

  /** Nothing was asked: there is no request id to ask with. */
  function NoRequestIdRun(browser: Option<Line>, http: Option<Line>, c: Clock): Run {
    var none := RequestsEnd(browser, http, c, START, Stop(NotStopped, NoDetail), NoStage, []);
    Run(none, Stop(Failed, NoRequestId), [], Stop(Failed, NoRequestId), RpcBrowser, [], c)
  }

  /** What a run is given: `dom` is what scrolling the page itself would show, if there is a page. */
  datatype Given = Given(
    out: Outside, cap: nat, reported: int, budget: nat, browser: Option<Line>, http: Option<Line>,
    dom: Option<seq<Review>>, clock: Clock)

  predicate Ready(g: Given) {
    g.cap > 0 && MayBeUsed(g.browser) && MayBeUsed(g.http)
  }

  /** At the start nothing has been asked on either route. */
  ghost predicate Starts(g: Given) {
    Ready(g) && Fresh(g.browser) && Fresh(g.http)
  }

  function AfterID(g: Given): Clock {
    g.clock.(ids := g.clock.ids + 1)
  }

  /** Collect one place's reviews; `dom` is what scrolling the page itself would show, if there is a page. */
  function Collect(g: Given): Run
    requires Ready(g)
  {
    if g.out.idFails(g.clock.ids) then NoRequestIdRun(g.browser, g.http, AfterID(g))
    else Finished(g.out, g.cap, g.reported, RunStages(g.out, g.cap, g.browser, g.http, AfterID(g), g.budget), g.dom)
  }

  /** The reviews handed to the place job. */
  function Rows(cap: nat, r: Run): seq<Review> {
    HandedOn({}, r.stream, cap)
  }

  // ---------------------------------------------------------------------------------------------
  // What every run promises
  // ---------------------------------------------------------------------------------------------

  /** What the requests of a run were, and how they ended. */
  lemma CollectRequests(g: Given)
    requires Ready(g)
    ensures var r := Collect(g);
      if g.out.idFails(g.clock.ids) then r == NoRequestIdRun(g.browser, g.http, AfterID(g))
      else
        && r.requests == RunStages(g.out, g.cap, g.browser, g.http, AfterID(g), g.budget)
        && r.last == LastOf(r.requests)
        && Reviews(Turns(r.requests.progress)) <= r.stream
  {
  }

  /**
   * A clean end means that the listing was read through, and the listing read through below the cap
   * means a clean end: the pages since the last restart, whichever route read them, are one linked chain
   * from the empty token, no token twice, to a page leading nowhere new.
   */
  lemma CleanEndExactlyWhenWhole(g: Given)
    requires Ready(g)
    ensures var r := Collect(g);
      && Linked(r.requests.progress.chain)
      && (r.last == Stop(Exhausted, NoDetail) <==>
            WholeChain(r.requests.progress.chain) && Held(g.cap, Reviews(Turns(r.requests.progress))) < g.cap)
      && (r.last.reason.Cap? <==> Held(g.cap, Reviews(Turns(r.requests.progress))) >= g.cap)
  {
    CollectRequests(g);
    if g.out.idFails(g.clock.ids) {
      NothingHeldAtFirst(g.cap);
    } else {
      StagesKeepChain(g.out, g.cap, g.browser, g.http, AfterID(g), g.budget);
      StagesEnd(g.out, g.cap, g.browser, g.http, AfterID(g), g.budget);
    }
  }

  /** The pages read, before and since the restart, are exactly those the routes were answered with, in order. */
  lemma PagesAreTheAnswers(g: Given)
    requires Starts(g)
    ensures var requests := Collect(g).requests;
      Turns(requests.progress) == PagesRead(AskedOn(requests.browser)) + PagesRead(AskedOn(requests.http))
  {
    CollectRequests(g);
    if g.out.idFails(g.clock.ids) {
      NothingAsked(g.browser);
      NothingAsked(g.http);
    } else {
      StagesReadAnswers(g.out, g.cap, g.browser, g.http, AfterID(g), g.budget);
    }
  }

  /**
   * What the routes were asked is on an honest record, no request on it was made as an identity refused
   * before, and n identities rotated n - 1 times at most.
   */
  lemma RefusedIdentitiesRest(g: Given)
    requires Starts(g)
    ensures var requests := Collect(g).requests;
      KeptIf(g.browser, requests.browser) && KeptIf(g.http, requests.http)
  {
    CollectRequests(g);
    UnusedIsKept(g.browser);
    UnusedIsKept(g.http);
    if !g.out.idFails(g.clock.ids) {
      StagesKeepLines(g.out, g.cap, g.browser, g.http, AfterID(g), g.budget);
    }
  }

  /** The route whose stage ended the requests. */
  function LastLine(requests: RequestsEnd): Option<Line> {
    if requests.lastStage.RpcHttp? then requests.http else if requests.lastStage.RpcBrowser? then requests.browser else None
  }

  /**
   * So of a run whose requests ended refused on a rotating route: what its detail says, that every identity
   * was refused, is so if and only if none was given up for failing and time was not up with another left.
   */
  lemma RefusedDetailHoldsExactlyWhen(g: Given)
    requires Starts(g)
    ensures var requests := Collect(g).requests;
      requests.last.reason.Blocked? ==>
        && LastLine(requests).Some?
        && var l := LastLine(requests).value;
           l.rotating ==> (AllRefused(l) <==> DetailHolds(g.out, l, requests.clock))
  {
    CollectRequests(g);
    if !g.out.idFails(g.clock.ids) {
      NothingAsked(g.browser);
      NothingAsked(g.http);
      StagesRefusedExactlyWhen(g.out, g.cap, g.browser, g.http, AfterID(g), g.budget);
    }
  }

  /** One restart at most over the run, and fewer than twice the page budget. */
  lemma PagesAreBounded(g: Given)
    requires Ready(g) && g.budget > 0
    ensures var p := Collect(g).requests.progress;
      p.restarts <= 1 && |Turns(p)| <= 2 * g.budget - 1
  {
    CollectRequests(g);
    if !g.out.idFails(g.clock.ids) {
      StagesAreBounded(g.out, g.cap, g.browser, g.http, AfterID(g), g.budget);
    }
  }

  lemma RequestsReadTheBudget(g: Given)
    requires Ready(g)
    ensures var r := Collect(g);
      OutOfPages(r.last) ==> |Turns(r.requests.progress)| >= g.budget
  {
    if !g.out.idFails(g.clock.ids) {
      StagesReadTheBudget(g.out, g.cap, g.browser, g.http, AfterID(g), g.budget);
    }
  }

  /** Its requests end every run in one of the ways a stage can end. */
  lemma RequestsEndTheRun(g: Given)
    requires Ready(g)
    ensures Ending(Collect(g).last)
  {
    CollectRequests(g);
    if !g.out.idFails(g.clock.ids) {
      StagesEnd(g.out, g.cap, g.browser, g.http, AfterID(g), g.budget);
    }
  }

  /**
   * The run ends as its requests did, or in the scroll: out of time, full, or exhausted, with the count
   * reached, the listing read through or the page budget used up. A refusal stays the reason unless the
   * page made up the count.
   */
  ghost predicate Concluded(o: Outcome, stage: Stage, last: Outcome, reported: int, held: nat, cap: nat) {
    if stage != Dom then o == last
    else
      && !last.reason.Cap? && !last.reason.Budget? && (reported > 0 || !last.reason.Exhausted?)
      && (o == Stop(Budget, NoDetail)
          || (o == Stop(Cap, NoDetail) && held >= cap)
          || (o == Stop(Exhausted, NoDetail) && reported > 0 && (ReadThrough(last) || OutOfPages(last) || held >= reported)))
  }

  lemma ConcludeConcludes(out: Outside, cap: nat, reported: int, last: Outcome, lastStage: Stage, held: nat,
                          scrolled: Option<nat>, looks: nat)
    requires lastStage != Dom && Ending(last)
    ensures var k := Conclude(out, cap, reported, last, lastStage, held, scrolled, looks);
      Concluded(k.outcome, k.stage, last, reported, if k.scrolled && scrolled.Some? then scrolled.value else held, cap)
  {
  }

  lemma FinishedConcludes(out: Outside, cap: nat, reported: int, requests: RequestsEnd, dom: Option<seq<Review>>)
    requires requests.lastStage != Dom && Ending(LastOf(requests))
    ensures var r := Finished(out, cap, reported, requests, dom);
      Concluded(r.outcome, r.stage, r.last, reported, Held(cap, r.stream), cap)
  {
    var read := Reviews(Turns(requests.progress));
    ConcludeConcludes(out, cap, reported, LastOf(requests), requests.lastStage, Held(cap, read), HeldWith(cap, read, dom),
                      requests.clock.looks);
    assert read + [] == read;
  }

  lemma CollectFinishes(g: Given)
    requires Ready(g) && !g.out.idFails(g.clock.ids)
    ensures var r := Collect(g);
      r == Finished(g.out, g.cap, g.reported, r.requests, g.dom) && r.requests.lastStage != Dom
  {
  }

  /** How every run ends. */
  lemma RunConcludes(g: Given)
    requires Ready(g)
    ensures var r := Collect(g);
      Concluded(r.outcome, r.stage, r.last, g.reported, Held(g.cap, r.stream), g.cap)
  {
    if !g.out.idFails(g.clock.ids) {
      CollectFinishes(g);
      RequestsEndTheRun(g);
      FinishedConcludes(g.out, g.cap, g.reported, Collect(g).requests, g.dom);
    }
  }

  lemma {:induction false} ReviewsOfATurn(turns: seq<Turn>, turn: Turn, r: Review)
    requires turn in turns && r in turn.page.reviews
    ensures r in Reviews(turns)
  {
    if turns[|turns| - 1] != turn {
      assert turn in turns[..|turns| - 1];
      ReviewsOfATurn(turns[..|turns| - 1], turn, r);
    }
  }

  lemma HeldGrows(cap: nat, s: seq<Review>, more: seq<Review>)
    requires s <= more
    ensures Held(cap, s) <= Held(cap, more)
    ensures IdSet(HandedOn({}, s, cap)) <= IdSet(HandedOn({}, more, cap))
  {
    assert more == s + more[|s|..];
    NewIdsMonotone({}, s, more[|s|..]);
    RowsOfIsExact({}, s, cap);
    RowsOfIsExact({}, more, cap);
    RowsOnlyGrow({}, s, more[|s|..], cap, RowsOf({}, s, cap), RowsOf({}, more, cap));
    HandedOnIsCounted({}, s, cap);
    HandedOnIsCounted({}, more, cap);
  }

  lemma HeldInFull(cap: nat, s: seq<Review>, r: Review)
    requires Held(cap, s) < cap && r in s && r.id != []
    ensures r.id in IdSet(HandedOn({}, s, cap))
  {
    RowsOfIsExact({}, s, cap);
    BelowCapHoldsEverything({}, s, cap, RowsOf({}, s, cap));
    HandedOnIsCounted({}, s, cap);
  }

  /**
   * Unless the requests filled the set, no id of any page answered is missing from the rows handed over,
   * of the pages before a restart included.
   */
  lemma NothingReadIsMissing(g: Given, turn: Turn, review: Review)
    requires Ready(g)
    requires var r := Collect(g);
      !r.last.reason.Cap? && turn in Turns(r.requests.progress)
    requires review in turn.page.reviews && review.id != []
    ensures review.id in IdSet(Rows(g.cap, Collect(g)))
  {
    var r := Collect(g);
    CleanEndExactlyWhenWhole(g);
    CollectRequests(g);
    if !g.out.idFails(g.clock.ids) {
      var read := Reviews(Turns(r.requests.progress));
      ReviewsOfATurn(Turns(r.requests.progress), turn, review);
      HeldInFull(g.cap, read, review);
      HeldGrows(g.cap, read, r.stream);
    }
  }

  // ---------------------------------------------------------------------------------------------
  // The report
  // ---------------------------------------------------------------------------------------------

  datatype ReportView = ReportView(
    reported: int, reportedKnown: bool, collected: nat, complete: bool, withoutID: nat,
    stopReason: StopReason, stopStage: Stage, stopDetail: Detail, stages: seq<Stage>,
    rpcPages: nat, rpcReviews: nat, domReviews: nat, blocks: nat, identityRotations: nat, restarts: nat)

  /** What the report is told: a clean end means nothing when the count is unknown. */
  function Told(o: StopReason, reportedKnown: bool): StopReason {
    if !reportedKnown && (o.Exhausted? || o.Done?) then CountUnknown else o
  }

  function RotationsOn(l: Option<Line>): nat {
    if l.Some? then l.value.rotations else 0
  }

  /** The report of a run, before the inline reviews are counted in. */
  function ReportOf(cap: nat, reported: int, r: Run): ReportView {
    var p := r.requests.progress;
    var rpc := Held(cap, Reviews(Turns(p)));
    ReportView(
      reported, reported > 0, 0, false, 0,
      Told(r.outcome.reason, reported > 0), r.stage, r.outcome.detail, r.stages,
      |Turns(p)|, rpc, Max(0, Held(cap, r.stream) - rpc),
      Refusals(AskedOn(r.requests.browser)) + Refusals(AskedOn(r.requests.http)),
      RotationsOn(r.requests.browser) + RotationsOn(r.requests.http),
      p.restarts)
  }

  lemma StreamOnlyGrows(g: Given)
    requires Ready(g)
    ensures var r := Collect(g);
      Held(g.cap, Reviews(Turns(r.requests.progress))) <= Held(g.cap, r.stream)
  {
    var r := Collect(g);
    CollectRequests(g);
    if g.out.idFails(g.clock.ids) {
      NothingHeldAtFirst(g.cap);
    } else {
      HeldGrows(g.cap, Reviews(Turns(r.requests.progress)), r.stream);
    }
  }

  /** The reviews told of in the report are the id-bearing rows handed over, all different, and within the cap. */
  lemma ReviewsAddUp(g: Given)
    requires Ready(g)
    ensures var r := Collect(g);
      var report := ReportOf(g.cap, g.reported, r);
      RowsCounted(Rows(g.cap, r), report.rpcReviews + report.domReviews, g.cap)
  {
    var r := Collect(g);
    StreamOnlyGrows(g);
    RowsAddUp(g.cap, g.reported, r);
  }

  lemma RowsAddUp(cap: nat, reported: int, r: Run)
    requires Held(cap, Reviews(Turns(r.requests.progress))) <= Held(cap, r.stream)
    ensures var report := ReportOf(cap, reported, r);
      RowsCounted(Rows(cap, r), report.rpcReviews + report.domReviews, cap)
  {
    RowsOfIsExact({}, r.stream, cap);
    HandedOnIsCounted({}, r.stream, cap);
  }

  /**
   * What a report's stop reason says about its run, n rows carrying an id: exhausted only with a known
   * count that was reached, or after pagination ended at the end of the listing or of the page budget; an
   * unknown count exactly after such an end without a count, and then the detail tells the two apart; full
   * only when full; any other reason is how the requests ended.
   */
  ghost predicate Tells(report: ReportView, last: Outcome, n: nat, cap: nat) {
    && (report.stopReason.Exhausted? ==>
          report.reported > 0 && (ReadThrough(last) || OutOfPages(last) || n >= report.reported))
    && (report.stopReason.CountUnknown? <==> report.reported <= 0 && (ReadThrough(last) || OutOfPages(last)))
    && (report.stopReason.CountUnknown? ==> (report.stopDetail == NoDetail <==> ReadThrough(last)))
    && (report.stopReason.Cap? ==> n >= cap)
    && (last.reason.Cap? || last.reason.Budget? ==> report.stopReason == last.reason)
    && (report.stopReason.Exhausted? || report.stopReason.CountUnknown? || report.stopReason.Cap? || report.stopReason.Budget?
        || report.stopReason == last.reason)
    && RpcEnd(if report.stopReason.CountUnknown? then last.reason else report.stopReason)
    && (report.stopStage != Dom ==> report.stopDetail == last.detail)
    && (report.stopStage == Dom ==> report.stopDetail == NoDetail)
  }

  lemma ReportTells(g: Given)
    requires Ready(g)
    ensures var r := Collect(g);
      Tells(ReportOf(g.cap, g.reported, r), r.last, Held(g.cap, r.stream), g.cap)
  {
    var r := Collect(g);
    RequestsEndTheRun(g);
    RunConcludes(g);
    CleanEndExactlyWhenWhole(g);
    StreamOnlyGrows(g);
    ConcludedTells(g.cap, g.reported, r);
  }

  lemma ConcludedTells(cap: nat, reported: int, r: Run)
    requires Ending(r.last) && Concluded(r.outcome, r.stage, r.last, reported, Held(cap, r.stream), cap)
    requires r.last.reason.Cap? ==> Held(cap, r.stream) >= cap
    ensures Tells(ReportOf(cap, reported, r), r.last, Held(cap, r.stream), cap)
  {
  }

  /**
   * In the report's own words: stopped in a request stage as exhausted, or for want of a count, the listing
   * was read through exactly when there is no detail.
   */
  lemma ReportedCleanEnd(g: Given)
    requires Ready(g)
    ensures var r := Collect(g);
      var report := ReportOf(g.cap, g.reported, r);
      report.stopStage != Dom && (report.stopReason.Exhausted? || report.stopReason.CountUnknown?) ==>
        (report.stopDetail == NoDetail <==> WholeChain(r.requests.progress.chain))
  {
    RequestsEndTheRun(g);
    RunConcludes(g);
    CleanEndExactlyWhenWhole(g);
  }

  /**
   * The report settled against the distinct union of inline and collected reviews: a run told as exhausted
   * is done when the union reaches the count.
   */
  function Finalized(v: ReportView, collected: nat): ReportView {
    var reached := v.reportedKnown && collected >= v.reported;
    var done := if v.stopReason.Exhausted? && reached
      then v.(collected := collected, stopReason := Done, stopStage := NoStage, stopDetail := NoDetail)
      else v.(collected := collected);
    done.(complete := (done.stopReason.Done? && reached) || (done.stopReason.NoReviews? && collected == 0))
  }

  // ---------------------------------------------------------------------------------------------
  // Which stages a run goes through
  // ---------------------------------------------------------------------------------------------

  /** How the browser's requests ended. */
  function FirstEnd(g: Given): Outcome
    requires MayBeUsed(g.browser)
  {
    BrowserStage(g.out, g.cap, g.browser, g.http, AfterID(g), g.budget).last
  }

  lemma FirstStops(g: Given)
    requires Ready(g)
    ensures g.browser.Some? ==> Ending(FirstEnd(g))
  {
    if g.browser.Some? {
      StageStops(g.out, g.cap, g.browser.value, AfterID(g), START, g.budget);
    }
  }

  /** Which request stages there are, and what becomes of a route that none is run on. */
  lemma StagesGoneThrough(g: Given)
    requires Ready(g)
    ensures var requests := RunStages(g.out, g.cap, g.browser, g.http, AfterID(g), g.budget);
      && Dom !in requests.stages
      && (RpcHttp in requests.stages <==> g.http.Some? && !EndsTheRun(FirstEnd(g).reason))
      && (RpcHttp !in requests.stages ==> requests.http == g.http)
      && requests.browser == BrowserStage(g.out, g.cap, g.browser, g.http, AfterID(g), g.budget).browser
  {
  }

  /**
   * A run takes the proxies' route exactly when there is one, there is an id to ask with, and the browser is
   * not there or was refused or failed; otherwise nothing is asked on it. The browser was refused exactly
   * when its last answer was a refusal.
   */
  lemma SecondRouteExactlyWhen(g: Given)
    requires Starts(g)
    ensures var r := Collect(g);
      && (RpcHttp in r.stages <==>
            g.http.Some? && !g.out.idFails(g.clock.ids)
            && (g.browser.None? || FirstEnd(g).reason.Blocked? || FirstEnd(g).reason.Failed?))
      && (RpcHttp !in r.stages ==> r.requests.http == g.http && AskedOn(r.requests.http) == [])
      && (g.browser.Some? && !g.out.idFails(g.clock.ids) ==>
            var asked := AskedOn(r.requests.browser);
            FirstEnd(g).reason.Blocked? <==> asked != [] && asked[|asked| - 1].answer.Refused?)
  {
    NothingAsked(g.http);
    if !g.out.idFails(g.clock.ids) {
      StagesGoneThrough(g);
      FirstStops(g);
      if g.browser.Some? {
        StageTellsItsEnd(g.out, g.cap, g.browser.value, AfterID(g), START, g.budget);
      }
    }
  }

  lemma FinishedScrolls(out: Outside, cap: nat, reported: int, requests: RequestsEnd, dom: Option<seq<Review>>)
    requires Dom !in requests.stages && requests.lastStage != Dom
    ensures var r, read := Finished(out, cap, reported, requests, dom), Reviews(Turns(requests.progress));
      && (Dom in r.stages <==>
            !r.last.reason.Cap? && !r.last.reason.Budget? && NeedMore(r.last.reason, reported, Held(cap, read))
            && dom.Some? && !out.late(requests.clock.looks))
      && (if Dom in r.stages then r.stream == read + dom.value
          else r.stream == read && r.outcome == r.last && r.stage != Dom)
  {
    assert Reviews(Turns(requests.progress)) + [] == Reviews(Turns(requests.progress));
  }

  /**
   * The report names the page's own list exactly when there is a page, an id and time, the requests ended
   * neither full nor out of time, and by the report's own count reviews are missing. Then no card with an id
   * is missing from the rows unless they are full. Otherwise the report is of the requests alone.
   */
  lemma ScrolledExactlyWhen(g: Given)
    requires Ready(g)
    ensures var r := Collect(g);
      var report := ReportOf(g.cap, g.reported, r);
      && (Dom in report.stages <==>
            && g.dom.Some? && !g.out.idFails(g.clock.ids) && !g.out.late(r.requests.clock.looks)
            && !r.last.reason.Cap? && !r.last.reason.Budget?
            && (if g.reported > 0 then report.rpcReviews < g.reported else !ReadThrough(r.last) && !OutOfPages(r.last)))
      && (Dom in report.stages ==>
            forall card :: card in g.dom.value && card.id != [] ==>
              Held(g.cap, r.stream) >= g.cap || card.id in IdSet(Rows(g.cap, r)))
      && (Dom !in report.stages ==>
            && report.domReviews == 0 && report.stopStage != Dom
            && report.stopReason == Told(r.last.reason, g.reported > 0) && report.stopDetail == r.last.detail)
  {
    RequestsEndTheRun(g);
    if !g.out.idFails(g.clock.ids) {
      CollectScrolls(g);
      var r := Collect(g);
      if Dom in r.stages {
        forall card | card in g.dom.value && card.id != [] && Held(g.cap, r.stream) < g.cap
          ensures card.id in IdSet(Rows(g.cap, r))
        {
          HeldInFull(g.cap, r.stream, card);
        }
      }
    }
  }

  /** After a scroll the clock, the cap and the count decide, in that order, and then how the requests ended. */
  lemma CollectJudges(g: Given)
    requires Ready(g) && !g.out.idFails(g.clock.ids)
    ensures var r := Collect(g);
      var k := Judged(g.out, g.cap, g.reported, r.last, r.requests.lastStage, Held(g.cap, r.stream), r.requests.clock.looks + 1);
      Dom in r.stages ==> r.outcome == k.outcome
  {
    StagesGoneThrough(g);
    CollectFinishes(g);
    FinishedJudges(g.out, g.cap, g.reported, Collect(g).requests, g.dom);
  }

  lemma FinishedJudges(out: Outside, cap: nat, reported: int, requests: RequestsEnd, dom: Option<seq<Review>>)
    requires Dom !in requests.stages
    ensures var r := Finished(out, cap, reported, requests, dom);
      var k := Judged(out, cap, reported, r.last, requests.lastStage, Held(cap, r.stream), requests.clock.looks + 1);
      Dom in r.stages ==> r.outcome == k.outcome
  {
  }

  /** The run's requests, and the scroll if there was one, ended as exhausted. */
  ghost predicate EndedExhausted(g: Given, r: Run) {
    if Dom !in r.stages then ReadThrough(r.last) || OutOfPages(r.last)
    else
      && !g.out.late(r.requests.clock.looks + 1) && Held(g.cap, r.stream) < g.cap
      && (ReadThrough(r.last) || OutOfPages(r.last) || Held(g.cap, r.stream) >= g.reported)
  }

  lemma JudgedExhausted(out: Outside, cap: nat, reported: int, last: Outcome, lastStage: Stage, held: nat, looks: nat)
    requires Ending(last) && reported > 0
    ensures Judged(out, cap, reported, last, lastStage, held, looks).outcome.reason.Exhausted? <==>
      !out.late(looks) && held < cap && (ReadThrough(last) || OutOfPages(last) || held >= reported)
  {
  }

  lemma EndsExhaustedExactlyWhen(g: Given)
    requires Ready(g) && g.reported > 0
    ensures Collect(g).outcome.reason.Exhausted? <==> EndedExhausted(g, Collect(g))
  {
    var r := Collect(g);
    RequestsEndTheRun(g);
    if !g.out.idFails(g.clock.ids) {
      CollectScrolls(g);
      CollectJudges(g);
      JudgedExhausted(g.out, g.cap, g.reported, r.last, r.requests.lastStage, Held(g.cap, r.stream), r.requests.clock.looks + 1);
    }
  }

  lemma CollectScrolls(g: Given)
    requires Ready(g) && !g.out.idFails(g.clock.ids)
    ensures var r := Collect(g);
      var read := Reviews(Turns(r.requests.progress));
      && (Dom in r.stages <==>
            !r.last.reason.Cap? && !r.last.reason.Budget? && NeedMore(r.last.reason, g.reported, Held(g.cap, read))
            && g.dom.Some? && !g.out.late(r.requests.clock.looks))
      && (if Dom in r.stages then r.stream == read + g.dom.value
          else r.stream == read && r.outcome == r.last && r.stage != Dom)
  {
    StagesGoneThrough(g);
    CollectFinishes(g);
    FinishedScrolls(g.out, g.cap, g.reported, Collect(g).requests, g.dom);
  }

  // ---------------------------------------------------------------------------------------------
  // Runs whose report says more than is so
  // ---------------------------------------------------------------------------------------------

  /** A route that answers, and nothing else to collect from. */
  ghost predicate OneRoute(g: Given, l: Line) {
    && Ready(g) && g.dom.None? && !g.out.idFails(g.clock.ids)
    && (if g.browser.Some? then g.browser.value == l && g.http.None? else g.http == Some(l))
  }

  /** Such a run is its one stage. */
  lemma OneRouteRun(g: Given, l: Line)
    requires OneRoute(g, l)
    ensures var r, e := Collect(g), RunStage(g.out, g.cap, l, AfterID(g), START, g.budget);
      && r.last == r.outcome == e.outcome && r.requests.progress == e.progress && r.stage != Dom
      && r.stream == Reviews(Turns(e.progress))
      && LastLine(r.requests) == Some(e.line)
  {
    var e := RunStage(g.out, g.cap, l, AfterID(g), START, g.budget);
    StageStops(g.out, g.cap, l, AfterID(g), START, g.budget);
    assert Reviews(Turns(e.progress)) + [] == Reviews(Turns(e.progress));
  }

  /** The first page is refused, and that is all there is to the stage. */
  lemma RefusedAtOnce(out: Outside, cap: nat, l: Line, c: Clock, budget: nat)
    requires Usable(l) && budget > 0 && !out.late(c.looks) && out.urlError(c.urls).None?
    requires var e := Fetch(out, l, Looked(c).(urls := c.urls + 1), "", false, 0);
      e.result.Stopped? && !e.result.outcome.afterRotation
    ensures var e := Fetch(out, l, Looked(c).(urls := c.urls + 1), "", false, 0);
      RunStage(out, cap, l, c, START, budget) == StageEnd(e.line, e.clock, START, e.result.outcome)
  {
    assert BeforeRequest(out, c, START, budget) == Guarded(Looked(c).(urls := c.urls + 1), None);
  }

  /** The report says that every identity was refused, and one was not. */
  ghost predicate SaysTooMuch(report: ReportView, l: Option<Line>, answer: string) {
    && report.stopReason.Blocked? && report.stopDetail == EveryIdentityRefused(answer)
    && l.Some? && !AllRefused(l.value)
  }

  /** What the run's report says is untrue. */
  ghost predicate UntrueReport(g: Given, answer: string)
    requires Ready(g)
  {
    SaysTooMuch(ReportOf(g.cap, g.reported, Collect(g)), LastLine(Collect(g).requests), answer)
  }

  lemma RefusedReport(cap: nat, reported: int, r: Run, answer: string)
    requires r.outcome == Stop(Blocked, EveryIdentityRefused(answer))
    requires LastLine(r.requests).Some? && !AllRefused(LastLine(r.requests).value)
    ensures SaysTooMuch(ReportOf(cap, reported, r), LastLine(r.requests), answer)
  {
  }

  /**
   * Both ways it can be untrue happen, for any cap and count: time runs out after the page was asked for and
   * before the refusal is seen to, and an identity is given up for failing before the other is refused.
   */
  lemma DetailCanBeUntrue(cap: nat, reported: int, pace: nat) returns (late: Given, failing: Given)
    requires cap > 0
    ensures Starts(late) && late.cap == cap && late.reported == reported && late.budget == ReviewPageBudget(reported, cap)
    ensures !late.out.late(0) && UntrueReport(late, "429")
    ensures Starts(failing) && failing.cap == cap && failing.reported == reported && failing.budget == ReviewPageBudget(reported, cap)
    ensures (forall k :: !failing.out.late(k)) && UntrueReport(failing, "429")
  {
    late := RefusedLate(cap, reported, pace);
    failing := RefusedAfterFailing(cap, reported, pace);
  }

  /** A place collected through two proxies only, the second of them in use. */
  function ThroughProxies(answers: nat -> Answer, late: nat -> bool, cap: nat, reported: int, pace: nat): (g: Given)
    requires cap > 0
    ensures Ready(g) && g.budget > 0
  {
    Given(Outside(late, _ => false, _ => false, _ => None), cap, reported, ReviewPageBudget(reported, cap),
          None, Some(Line(answers, true, [false, false], 1, [], 0, {})), None, Clock(0, 0, 0, 0, pace))
  }

  lemma RefusedLate(cap: nat, reported: int, pace: nat) returns (g: Given)
    requires cap > 0
    ensures Starts(g) && g.cap == cap && g.reported == reported && g.budget == ReviewPageBudget(reported, cap)
    ensures !g.out.late(0) && UntrueReport(g, "429")
  {
    g := ThroughProxies(_ => Refused("429"), k => k > 0, cap, reported, pace);
    TimeUpAtTheRefusal(g.out, g.http.value, Clock(1, 0, 1, 1, pace));
    RefusedRunSays(g, g.http.value, Clock(1, 0, 1, 1, pace), "429");
  }

  lemma RefusedAfterFailing(cap: nat, reported: int, pace: nat) returns (g: Given)
    requires cap > 0
    ensures Starts(g) && g.cap == cap && g.reported == reported && g.budget == ReviewPageBudget(reported, cap)
    ensures (forall k :: !g.out.late(k)) && UntrueReport(g, "429")
  {
    g := ThroughProxies(k => if k < 3 then Transient("dead proxy") else Refused("429"), _ => false, cap, reported, pace);
    FailingThenRefused(g.out, g.http.value, Clock(1, 0, 1, 1, pace));
    RefusedRunSays(g, g.http.value, Clock(1, 0, 1, 1, pace), "429");
  }

  lemma RefusedRunSays(g: Given, l: Line, d: Clock, answer: string)
    requires OneRoute(g, l) && g.budget > 0
    requires !g.out.late(g.clock.looks) && g.out.urlError(g.clock.urls).None?
    requires d == Looked(AfterID(g)).(urls := g.clock.urls + 1)
    requires var e := Fetch(g.out, l, d, "", false, 0);
      e.result == Stopped(Stop(Blocked, EveryIdentityRefused(answer))) && !AllRefused(e.line)
    ensures UntrueReport(g, answer)
  {
    RefusedAtOnce(g.out, g.cap, l, AfterID(g), g.budget);
    OneRouteRun(g, l);
    RefusedReport(g.cap, g.reported, Collect(g), answer);
  }

  /** A browser whose every page carries the review, and names a next page. */
  function Endless(review: Review): Line {
    Line(_ => Read(Page([review], "a")), false, [false], 0, [], 0, {})
  }

  /** With a page budget of one it reads one page, and stops short of the next. */
  lemma OnePageOfMore(out: Outside, cap: nat, review: Review, c: Clock)
    requires cap > 1 && review.id != []
    requires (forall k :: !out.late(k)) && (forall k :: !out.interrupted(k)) && (forall k :: out.urlError(k).None?)
    ensures var e := RunStage(out, cap, Endless(review), c, START, 1);
      OutOfPages(e.outcome) && e.progress == OnePage(review)
  {
    var l := Asked(Endless(review), "");
    var d := Slept(Looked(c).(urls := c.urls + 1));
    ThePageIsRead(out, cap, review, c);
    OnePageIsRead(review);
    assert OneRound(out, cap, l, d, OnePage(review), 1)
      == Ended(StageEnd(l, Looked(d), OnePage(review), Stop(Exhausted, PageBudgetReached)));
    assert RunStage(out, cap, l, d, OnePage(review), 1).outcome == Stop(Exhausted, PageBudgetReached);
  }

  /** One page read, leading on. */
  function OnePage(review: Review): Progress {
    Progress("a", {"a"}, [], [Turn("", Page([review], "a"))], 0)
  }

  lemma ThePageIsRead(out: Outside, cap: nat, review: Review, c: Clock)
    requires cap > 1 && review.id != []
    requires (forall k :: !out.late(k)) && (forall k :: !out.interrupted(k)) && (forall k :: out.urlError(k).None?)
    ensures var d := Slept(Looked(c).(urls := c.urls + 1));
      OneRound(out, cap, Endless(review), c, START, 1) == On(Asked(Endless(review), ""), d, OnePage(review), 1)
  {
    AnsweredAtOnce(out, cap, Endless(review), c, START, 1, Page([review], "a"));
    OneReviewIsHeld(cap, review);
    OnePageIsRead(review);
    LeadsToTheNext(out, cap, Asked(Endless(review), ""), Looked(c).(urls := c.urls + 1), review);
  }

  lemma AnsweredAtOnce(out: Outside, cap: nat, l: Line, c: Clock, p: Progress, budget: nat, page: Page)
    requires Usable(l) && l.answers(|l.asked|) == Read(page)
    requires !out.late(c.looks) && out.urlError(c.urls).None? && |Turns(p)| < budget
    ensures OneRound(out, cap, l, c, p, budget)
      == AfterPage(out, cap, Asked(l, p.token), Looked(c).(urls := c.urls + 1), p, budget, page)
  {
  }

  lemma OnePageIsRead(review: Review)
    ensures Turns(OnePage(review)) == [Turn("", Page([review], "a"))]
    ensures Reviews(Turns(OnePage(review))) == [review]
  {
    var turn := Turn("", Page([review], "a"));
    assert [turn][..0] == [] && Reviews([]) == [];
    assert Turns(OnePage(review)) == [turn];
    assert Reviews([turn]) == [] + [review];
  }

  lemma LeadsToTheNext(out: Outside, cap: nat, l: Line, c: Clock, review: Review)
    requires Held(cap, Reviews(Turns(OnePage(review)))) < cap && !out.interrupted(c.sleeps)
    ensures AfterPage(out, cap, l, c, START, 1, Page([review], "a")) == On(l, Slept(c), OnePage(review), 1)
  {
    var q := ReadOn(START, Page([review], "a"));
    assert q.chain == OnePage(review).chain;
    assert Turns(q) == Turns(OnePage(review));
  }

  lemma OneReviewIsHeld(cap: nat, review: Review)
    requires cap > 1 && review.id != []
    ensures Held(cap, [review]) == 1
  {
    assert NewIds({}, [review]) == [review.id];
  }

  /** A run on a budget of one page, which is what a cap of at most 39 allows; the count is any. */
  function OnePageRun(cap: nat, reported: int, review: Review, pace: nat): (g: Given)
    requires 1 < cap < 40
    ensures Ready(g)
  {
    Given(Outside(_ => false, _ => false, _ => false, _ => None), cap, reported, ReviewPageBudget(reported, cap),
          Some(Endless(review)), None, None, Clock(0, 0, 0, 0, pace))
  }

  lemma OnePageRunEnds(cap: nat, reported: int, review: Review, pace: nat)
    requires 1 < cap < 40 && review.id != []
    ensures var g := OnePageRun(cap, reported, review, pace);
      var r := Collect(g);
      && Starts(g) && OutOfPages(r.last) && r.outcome == r.last && r.stage != Dom
      && r.requests.progress == OnePage(review) && r.stream == [review]
  {
    var g := OnePageRun(cap, reported, review, pace);
    assert g.budget == 1;
    OnePageOfMore(g.out, cap, review, AfterID(g));
    OneRouteRun(g, Endless(review));
    OnePageIsRead(review);
  }

  lemma OnePageIsNotTheListing(review: Review)
    ensures !WholeChain(OnePage(review).chain)
  {
    var chain := OnePage(review).chain;
    assert chain[0].page.next == "a" && !ReadAlready(chain, "a");
  }

  /** Without a count, such a run is told as of unknown count just as a listing read through is. */
  lemma UnknownCountOnThePageBudget(cap: nat, reported: int, review: Review, pace: nat)
    requires 1 < cap < 40 && review.id != [] && reported <= 0
    ensures var g := OnePageRun(cap, reported, review, pace);
      var r := Collect(g);
      && Starts(g) && ReportOf(cap, reported, r).stopReason.CountUnknown?
      && ReportOf(cap, reported, r).stopDetail == PageBudgetReached
      && !WholeChain(r.requests.progress.chain)
  {
    OnePageRunEnds(cap, reported, review, pace);
    OnePageIsNotTheListing(review);
  }
}
