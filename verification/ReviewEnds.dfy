/**
 * How a page, a stage and a run of a review collection end (gmaps/review_collector.go), read off what
 * the outside answered: the record of requests, and every look at the deadline, sleep, URL and request id.
 */
module ReviewEnds {
  import opened Common
  import opened ReviewSets
  import opened ReviewIdentity
  import opened ReviewRuns

  // ---------------------------------------------------------------------------------------------
  // What the outside answered from one moment to another
  // ---------------------------------------------------------------------------------------------

  /** Every look, sleep, URL and id from c to d went well. */
  ghost predicate AllWell(out: Outside, c: Clock, d: Clock) {
    && c.looks <= d.looks && c.sleeps <= d.sleeps && c.urls <= d.urls && c.ids <= d.ids
    && (forall k :: c.looks <= k < d.looks ==> !out.late(k))
    && (forall k :: c.sleeps <= k < d.sleeps ==> !out.interrupted(k))
    && (forall k :: c.urls <= k < d.urls ==> out.urlError(k).None?)
    && (forall k :: c.ids <= k < d.ids ==> !out.idFails(k))
  }

  /** All but possibly the last of each did: whatever goes wrong is the last of its kind. */
  ghost predicate AllButLastWell(out: Outside, c: Clock, d: Clock) {
    && c.looks <= d.looks && c.sleeps <= d.sleeps && c.urls <= d.urls && c.ids <= d.ids
    && (forall k :: c.looks <= k < d.looks - 1 ==> !out.late(k))
    && (forall k :: c.sleeps <= k < d.sleeps - 1 ==> !out.interrupted(k))
    && (forall k :: c.urls <= k < d.urls - 1 ==> out.urlError(k).None?)
    && (forall k :: c.ids <= k < d.ids - 1 ==> !out.idFails(k))
  }

  /** The last look found the deadline passed. */
  ghost predicate Late(out: Outside, c: Clock, d: Clock) {
    d.looks > c.looks && out.late(d.looks - 1)
  }

  /** The last sleep was interrupted. */
  ghost predicate CutShort(out: Outside, c: Clock, d: Clock) {
    d.sleeps > c.sleeps && out.interrupted(d.sleeps - 1)
  }

  /** The last URL could not be made. */
  ghost predicate NoUrl(out: Outside, c: Clock, d: Clock) {
    d.urls > c.urls && out.urlError(d.urls - 1).Some?
  }

  /** The last request id could not be had. */
  ghost predicate NoId(out: Outside, c: Clock, d: Clock) {
    d.ids > c.ids && out.idFails(d.ids - 1)
  }

  lemma WellThenOn(out: Outside, c: Clock, d: Clock, e: Clock)
    requires AllWell(out, c, d) && AllButLastWell(out, d, e)
    ensures AllButLastWell(out, c, e)
    ensures Late(out, c, e) <==> Late(out, d, e)
    ensures CutShort(out, c, e) <==> CutShort(out, d, e)
    ensures NoUrl(out, c, e) <==> NoUrl(out, d, e)
    ensures NoId(out, c, e) <==> NoId(out, d, e)
  {
  }

  lemma WellAndWell(out: Outside, c: Clock, d: Clock, e: Clock)
    requires AllWell(out, c, d) && AllWell(out, d, e)
    ensures AllWell(out, c, e)
  {
  }

  // ---------------------------------------------------------------------------------------------
  // One page: time up, or failing
  // ---------------------------------------------------------------------------------------------

  /** What the clock says of the end of a page, by the last answer. */
  ghost predicate PageHeeds(out: Outside, c: Clock, d: Clock, last: Answer, rotating: bool, result: Fetched) {
    && d.urls == c.urls && d.ids == c.ids
    && AllButLastWell(out, c, d)
    && (last.Read? || last.Unreadable? || last.Invalid? || (last.Refused? && !rotating) ==> AllWell(out, c, d))
    && (last.Refused? ==> !CutShort(out, c, d))
    && (last.Transient? ==> (result == Stopped(Stop(Budget, NoDetail)) <==> Late(out, c, d) || CutShort(out, c, d)))
  }

  lemma OverHeeds(out: Outside, l: Line, c: Clock, token: Token, rotated: bool, attempt: nat)
    requires Usable(l) && OneRequest(out, l, c, token, rotated, attempt).Over?
    ensures var e := OneRequest(out, l, c, token, rotated, attempt).end;
      PageHeeds(out, c, e.clock, l.answers(|l.asked|), l.rotating, e.result) && e.line.asked == Asked(l, token).asked
  {
  }

  lemma AgainIsWell(out: Outside, l: Line, c: Clock, token: Token, rotated: bool, attempt: nat)
    requires Usable(l)
    ensures var next := OneRequest(out, l, c, token, rotated, attempt);
      next.Again? ==>
        && AllWell(out, c, next.clock) && next.clock.urls == c.urls && next.clock.ids == c.ids
        && next.line.asked == Asked(l, token).asked && next.line.rotating == l.rotating
  {
  }

  lemma HeedsFurtherOn(out: Outside, c: Clock, d: Clock, e: Clock, last: Answer, rotating: bool, result: Fetched)
    requires AllWell(out, c, d) && d.urls == c.urls && d.ids == c.ids && PageHeeds(out, d, e, last, rotating, result)
    ensures PageHeeds(out, c, e, last, rotating, result)
  {
    WellThenOn(out, c, d, e);
  }

  /**
   * Nothing more is asked once a look finds the deadline passed or a sleep is interrupted; a page whose last
   * answer was a failure is told as out of time if and only if one of the two happened, and otherwise as failed.
   */
  lemma {:induction false} FetchHeeds(out: Outside, l: Line, c: Clock, token: Token, rotated: bool, attempt: nat)
    requires Usable(l) && attempt <= TRANSIENT_RETRIES
    ensures var e := Fetch(out, l, c, token, rotated, attempt);
      |e.line.asked| > |l.asked| && PageHeeds(out, c, e.clock, Last(e.line), l.rotating, e.result)
    decreases Unrefused(l.blocked), TRANSIENT_RETRIES - attempt
  {
    AgainUsesUp(out, l, c, token, rotated, attempt);
    var next := OneRequest(out, l, c, token, rotated, attempt);
    if next.Again? {
      AgainIsWell(out, l, c, token, rotated, attempt);
      FetchHeeds(out, next.line, next.clock, token, next.rotated, next.attempt);
      var e := Fetch(out, next.line, next.clock, token, next.rotated, next.attempt);
      HeedsFurtherOn(out, c, next.clock, e.clock, Last(e.line), l.rotating, e.result);
    } else {
      OverHeeds(out, l, c, token, rotated, attempt);
    }
  }

  /** The last n requests were made as the identity in use, and failed. */
  ghost predicate Failing(l: Line, n: nat) {
    n <= |l.asked| && forall i :: |l.asked| - n <= i < |l.asked| ==> l.asked[i].identity == l.cur && l.asked[i].answer.Transient?
  }

  /** No other identity is left to go on as. */
  ghost predicate NoneLeft(l: Line) {
    l.rotating ==> forall i :: 0 <= i < |l.blocked| ==> l.blocked[i]
  }

  /** Three requests in a row from k on were made as the identity and failed. */
  ghost predicate ThreeAt(asked: seq<Request>, k: nat, identity: nat) {
    && k + 2 < |asked|
    && asked[k].identity == asked[k + 1].identity == asked[k + 2].identity == identity
    && asked[k].answer.Transient? && asked[k + 1].answer.Transient? && asked[k + 2].answer.Transient?
  }

  /** And this somewhere from `from` on. */
  ghost predicate ThreeFailures(asked: seq<Request>, from: int, identity: nat) {
    exists k: nat :: from <= k && ThreeAt(asked, k, identity)
  }

  /** The page failed on failures, three in a row as the last identity with none other left, if it did. */
  ghost predicate FailsAfterThree(e: FetchEnd) {
    e.result.Stopped? && e.result.outcome.reason.Failed? && e.line.asked != [] && Last(e.line).Transient? ==>
      Failing(e.line, 3) && NoneLeft(e.line)
  }

  /** Any identity given up for failing had failed three times in a row. */
  ghost predicate DropsAfterThree(l: Line, from: int, t: Line) {
    forall id :: id in t.dropped && id !in l.dropped ==> ThreeFailures(t.asked, from, id)
  }

  lemma AnotherFailure(l: Line, token: Token, attempt: nat)
    requires Failing(l, attempt) && l.answers(|l.asked|).Transient?
    ensures Failing(Asked(l, token), attempt + 1)
  {
  }

  lemma ThreeAreThree(l: Line, from: int)
    requires Failing(l, 3) && from <= |l.asked| - 3
    ensures ThreeFailures(l.asked, from, l.cur)
  {
    assert ThreeAt(l.asked, |l.asked| - 3, l.cur);
  }

  lemma OverFails(out: Outside, l: Line, c: Clock, token: Token, rotated: bool, attempt: nat)
    requires Usable(l) && attempt <= 2 && Failing(l, attempt) && OneRequest(out, l, c, token, rotated, attempt).Over?
    ensures FailsAfterThree(OneRequest(out, l, c, token, rotated, attempt).end)
  {
    if l.answers(|l.asked|).Transient? {
      AnotherFailure(l, token, attempt);
      RotationUsesOne(Asked(l, token), true);
    }
  }

  /** A request that another follows for the page leaves the count of failures in a row what it is. */
  lemma AgainFails(out: Outside, l: Line, c: Clock, token: Token, rotated: bool, attempt: nat)
    requires Usable(l) && attempt <= 2 && Failing(l, attempt) && OneRequest(out, l, c, token, rotated, attempt).Again?
    ensures var next := OneRequest(out, l, c, token, rotated, attempt);
      Failing(next.line, next.attempt) && |next.line.asked| - next.attempt >= |l.asked| - attempt
  {
    if l.answers(|l.asked|).Transient? {
      AnotherFailure(l, token, attempt);
    }
  }

  /** An identity given up for failing is the one in use, after its third failure. */
  lemma RequestDrops(out: Outside, l: Line, c: Clock, token: Token, rotated: bool, attempt: nat)
    requires Usable(l) && attempt <= 2
    ensures var next := OneRequest(out, l, c, token, rotated, attempt);
      var t := if next.Again? then next.line else next.end.line;
      && t.asked == Asked(l, token).asked
      && (t.dropped == l.dropped || (t.dropped == l.dropped + {l.cur} && attempt == 2 && l.answers(|l.asked|).Transient?))
  {
  }

  lemma OneMoreDrop(l: Line, token: Token, attempt: nat, t: Line)
    requires attempt <= 2 && Failing(l, attempt) && t.asked == Asked(l, token).asked
    requires t.dropped == l.dropped || (t.dropped == l.dropped + {l.cur} && attempt == 2 && l.answers(|l.asked|).Transient?)
    ensures DropsAfterThree(l, |l.asked| - attempt, t)
  {
    if t.dropped != l.dropped {
      AnotherFailure(l, token, attempt);
      ThreeAreThree(Asked(l, token), |l.asked| - 2);
    }
  }

  lemma ThreeStay(asked: seq<Request>, more: seq<Request>, from: int, low: int, identity: nat)
    requires asked <= more && low <= from && ThreeFailures(asked, from, identity)
    ensures ThreeFailures(more, low, identity)
  {
    var k: nat :| from <= k && ThreeAt(asked, k, identity);
    assert ThreeAt(more, k, identity);
  }

  lemma DropsOn(l: Line, low: int, u: Line, from: int, t: Line)
    requires low <= from && u.asked <= t.asked && DropsAfterThree(l, low, u) && DropsAfterThree(u, from, t)
    ensures DropsAfterThree(l, low, t)
  {
    forall id | id in t.dropped && id !in l.dropped ensures ThreeFailures(t.asked, low, id) {
      if id in u.dropped {
        ThreeStay(u.asked, t.asked, low, low, id);
      } else {
        ThreeStay(t.asked, t.asked, from, low, id);
      }
    }
  }

  /**
   * A page fails on failures only after three of them in a row as the last identity, none other being left;
   * and an identity is given up for failing only after three in a row.
   */
  lemma {:induction false} FetchFailsAfterThree(out: Outside, l: Line, c: Clock, token: Token, rotated: bool, attempt: nat)
    requires Usable(l) && attempt <= TRANSIENT_RETRIES && Failing(l, attempt)
    ensures var e := Fetch(out, l, c, token, rotated, attempt);
      l.asked <= e.line.asked && FailsAfterThree(e) && DropsAfterThree(l, |l.asked| - attempt, e.line)
    decreases Unrefused(l.blocked), TRANSIENT_RETRIES - attempt
  {
    AgainUsesUp(out, l, c, token, rotated, attempt);
    RequestDrops(out, l, c, token, rotated, attempt);
    var next := OneRequest(out, l, c, token, rotated, attempt);
    OneMoreDrop(l, token, attempt, if next.Again? then next.line else next.end.line);
    if next.Again? {
      AgainFails(out, l, c, token, rotated, attempt);
      FetchFailsAfterThree(out, next.line, next.clock, token, next.rotated, next.attempt);
      var e := Fetch(out, next.line, next.clock, token, next.rotated, next.attempt);
      DropsOn(l, |l.asked| - attempt, next.line, |next.line.asked| - next.attempt, e.line);
    } else {
      OverFails(out, l, c, token, rotated, attempt);
    }
  }

  /**
   * So of a page whose last answer was a failure: out of time if and only if the last look found the deadline
   * passed or the last sleep was interrupted; failed, with that answer's detail, if and only if neither, and
   * then after three failures in a row as the last identity, with no other left.
   */
  lemma FailedExactlyWhen(out: Outside, l: Line, c: Clock, token: Token)
    requires Usable(l)
    ensures var e := Fetch(out, l, c, token, false, 0);
      |e.line.asked| > |l.asked| &&
      (Last(e.line).Transient? ==>
        var timeUp := Late(out, c, e.clock) || CutShort(out, c, e.clock);
        && (e.result == Stopped(Stop(Budget, NoDetail)) <==> timeUp)
        && (e.result == Stopped(Stop(Failed, Said(Last(e.line).detail))) <==> !timeUp)
        && (!timeUp ==> Failing(e.line, 3) && NoneLeft(e.line)))
  {
    FetchHeeds(out, l, c, token, false, 0);
    FetchEndsOnTheAnswer(out, l, c, token, false, 0);
    FetchFailsAfterThree(out, l, c, token, false, 0);
  }

  // ---------------------------------------------------------------------------------------------
  // One page: what is asked, as whom, and how fast
  // ---------------------------------------------------------------------------------------------

  /**
   * From request m on all are for the token, the first as the identity in use before, all but the last of
   * them refused or failing; a rotation came among them exactly when the last was made as another identity.
   */
  ghost predicate AsksFor(l: Line, token: Token, t: Line) {
    var m := |l.asked|;
    && m < |t.asked| && l.asked <= t.asked && t.rotating == l.rotating && t.asked[m].identity == l.cur
    && (forall i :: m <= i < |t.asked| ==> t.asked[i].token == token)
    && (forall i :: m <= i < |t.asked| ==> t.asked[i].identity < |l.blocked| && !l.blocked[t.asked[i].identity])
    && (forall i :: m <= i < |t.asked| - 1 ==> t.asked[i].answer.Refused? || t.asked[i].answer.Transient?)
    && l.rotations <= t.rotations
    && (t.rotations > l.rotations <==> t.asked[|t.asked| - 1].identity != l.cur)
    && (t.rotations == l.rotations ==> forall i :: m <= i < |t.asked| ==> t.asked[i].identity == l.cur)
  }

  lemma OverAsks(out: Outside, l: Line, c: Clock, token: Token, rotated: bool, attempt: nat)
    requires Usable(l) && OneRequest(out, l, c, token, rotated, attempt).Over?
    ensures AsksFor(l, token, OneRequest(out, l, c, token, rotated, attempt).end.line)
  {
  }

  lemma AgainAsks(out: Outside, l: Line, c: Clock, token: Token, rotated: bool, attempt: nat)
    requires Usable(l) && OneRequest(out, l, c, token, rotated, attempt).Again?
    ensures var next := OneRequest(out, l, c, token, rotated, attempt);
      && next.line.asked == Asked(l, token).asked && next.line.rotating == l.rotating
      && (l.answers(|l.asked|).Refused? || l.answers(|l.asked|).Transient?)
      && (|| (next.line.blocked == l.blocked && next.line.cur == l.cur && next.line.rotations == l.rotations)
          || (next.line.blocked == l.blocked[l.cur := true] && next.line.rotations == l.rotations + 1))
  {
    RotationUsesOne(Asked(l, token), l.answers(|l.asked|).Transient?);
  }

  lemma AsksFurtherOn(l: Line, token: Token, u: Line, t: Line)
    requires Usable(l) && u.asked == Asked(l, token).asked && u.rotating == l.rotating && AsksFor(u, token, t)
    requires l.answers(|l.asked|).Refused? || l.answers(|l.asked|).Transient?
    requires (u.blocked == l.blocked && u.cur == l.cur && u.rotations == l.rotations)
          || (u.blocked == l.blocked[l.cur := true] && u.rotations == l.rotations + 1)
    ensures AsksFor(l, token, t)
  {
    assert t.asked[|l.asked|] == u.asked[|l.asked|];
  }

  lemma {:induction false} FetchAsksFor(out: Outside, l: Line, c: Clock, token: Token, rotated: bool, attempt: nat)
    requires Usable(l) && attempt <= TRANSIENT_RETRIES
    ensures AsksFor(l, token, Fetch(out, l, c, token, rotated, attempt).line)
    decreases Unrefused(l.blocked), TRANSIENT_RETRIES - attempt
  {
    AgainUsesUp(out, l, c, token, rotated, attempt);
    var next := OneRequest(out, l, c, token, rotated, attempt);
    if next.Again? {
      AgainAsks(out, l, c, token, rotated, attempt);
      FetchAsksFor(out, next.line, next.clock, token, next.rotated, next.attempt);
      AsksFurtherOn(l, token, next.line, Fetch(out, next.line, next.clock, token, next.rotated, next.attempt).line);
    } else {
      OverAsks(out, l, c, token, rotated, attempt);
    }
  }

  /** How many of the requests failed. */
  function Failures(asked: seq<Request>): nat {
    if asked == [] then 0
    else Failures(asked[..|asked| - 1]) + if asked[|asked| - 1].answer.Transient? then 1 else 0
  }

  /** How many of the answers have the deadline looked at: failures, and refusals that a route could rotate after. */
  function LooksFor(asked: seq<Request>, rotating: bool): nat {
    if asked == [] then 0
    else
      var answer := asked[|asked| - 1].answer;
      LooksFor(asked[..|asked| - 1], rotating) + if answer.Transient? || (answer.Refused? && rotating) then 1 else 0
  }

  /** How many of the requests ask again as an identity that has just failed. */
  function Retries(asked: seq<Request>): nat {
    if |asked| <= 1 then 0
    else
      var last, before := asked[|asked| - 1], asked[|asked| - 2];
      Retries(asked[..|asked| - 1]) + if before.answer.Transient? && before.identity == last.identity then 1 else 0
  }

  /** The pace after n failures. */
  function Paced(pace: nat, n: nat): nat {
    if n == 0 then pace else Slower(Paced(pace, n - 1))
  }

  /** Doubled at each failure, from one second at least, up to eight seconds; a pause that is longer stays. */
  lemma {:induction false} PaceDoubles(pace: nat, n: nat)
    requires n > 0
    ensures Paced(pace, n) == if pace >= 8000 then pace else Min(8000, Max(2 * pace, 1000) * Pow2(n - 1))
  {
    if n > 1 {
      PaceDoubles(pace, n - 1);
      DoubledOnce(Max(2 * pace, 1000), Pow2(n - 2));
    }
  }

  lemma DoubledOnce(start: nat, times: nat)
    requires start >= 1000 && times >= 1
    ensures start * times >= 1000 && start * (2 * times) == 2 * (start * times)
  {
  }

  lemma {:induction false} PacedOn(pace: nat, m: nat, n: nat)
    ensures Paced(Paced(pace, m), n) == Paced(pace, m + n)
  {
    if n > 0 {
      PacedOn(pace, m, n - 1);
    }
  }

  lemma OneMoreAsked(asked: seq<Request>, r: Request, rotating: bool)
    ensures Failures(asked + [r]) == Failures(asked) + if r.answer.Transient? then 1 else 0
    ensures LooksFor(asked + [r], rotating)
      == LooksFor(asked, rotating) + if r.answer.Transient? || (r.answer.Refused? && rotating) then 1 else 0
    ensures Retries(asked + [r]) == Retries(asked)
      + if asked != [] && asked[|asked| - 1].answer.Transient? && asked[|asked| - 1].identity == r.identity then 1 else 0
  {
    assert (asked + [r])[..|asked|] == asked;
  }

  /** The next request is a retry: the last one failed as the identity in use. */
  predicate RetryDue(l: Line) {
    l.asked != [] && Last(l).Transient? && l.asked[|l.asked| - 1].identity == l.cur
  }

  /**
   * From c to d the deadline was looked at once for each failure and each refusal a route could rotate after,
   * there was a sleep before each retry, and the pause grew with each failure.
   */
  ghost predicate Paces(l: Line, c: Clock, due: bool, t: Line, d: Clock) {
    && Failures(l.asked) <= Failures(t.asked)
    && d.looks - c.looks == LooksFor(t.asked, l.rotating) - LooksFor(l.asked, l.rotating)
    && d.sleeps - c.sleeps + (if due then 1 else 0) >= Retries(t.asked) - Retries(l.asked)
    && d.pace == Paced(c.pace, Failures(t.asked) - Failures(l.asked))
  }

  /** What one request adds. */
  lemma RequestTakes(out: Outside, l: Line, c: Clock, token: Token, rotated: bool, attempt: nat)
    requires Usable(l)
    ensures var next, answer := OneRequest(out, l, c, token, rotated, attempt), l.answers(|l.asked|);
      var t := if next.Again? then next.line else next.end.line;
      var d := if next.Again? then next.clock else next.end.clock;
      && t.asked == Asked(l, token).asked && t.rotating == l.rotating
      && d.looks == c.looks + (if answer.Transient? || (answer.Refused? && l.rotating) then 1 else 0)
      && d.pace == (if answer.Transient? then Slower(c.pace) else c.pace)
      && d.sleeps >= c.sleeps
      && (next.Again? && answer.Transient? && next.line.cur == l.cur ==> d.sleeps == c.sleeps + 1)
  {
    RotationUsesOne(Asked(l, token), l.answers(|l.asked|).Transient?);
  }

  lemma OneRequestPaces(l: Line, c: Clock, token: Token, t: Line, d: Clock)
    requires t.asked == Asked(l, token).asked && t.rotating == l.rotating
    requires var answer := l.answers(|l.asked|);
      && d.looks == c.looks + (if answer.Transient? || (answer.Refused? && l.rotating) then 1 else 0)
      && d.pace == (if answer.Transient? then Slower(c.pace) else c.pace)
      && d.sleeps >= c.sleeps
    ensures Paces(l, c, RetryDue(l), t, d)
    ensures Retries(t.asked) == Retries(l.asked) + if RetryDue(l) then 1 else 0
  {
    OneMoreAsked(l.asked, Request(l.cur, token, l.answers(|l.asked|)), l.rotating);
    assert Paced(c.pace, 0) == c.pace && Paced(c.pace, 1) == Slower(Paced(c.pace, 0));
  }

  lemma PacesOn(l: Line, c: Clock, u: Line, d: Clock, t: Line, e: Clock)
    requires Paces(l, c, RetryDue(l), u, d) && Paces(u, d, RetryDue(u), t, e) && u.rotating == l.rotating
    requires Retries(u.asked) == Retries(l.asked) + if RetryDue(l) then 1 else 0
    requires RetryDue(u) ==> d.sleeps > c.sleeps
    requires d.sleeps >= c.sleeps
    ensures Paces(l, c, RetryDue(l), t, e)
  {
    PacedOn(c.pace, Failures(u.asked) - Failures(l.asked), Failures(t.asked) - Failures(u.asked));
  }

  /** Once a page is asked for, looks, sleeps and the pause between pages are what its answers call for. */
  lemma {:induction false} FetchPaces(out: Outside, l: Line, c: Clock, token: Token, rotated: bool, attempt: nat)
    requires Usable(l) && attempt <= TRANSIENT_RETRIES
    ensures var e := Fetch(out, l, c, token, rotated, attempt);
      Paces(l, c, RetryDue(l), e.line, e.clock)
    decreases Unrefused(l.blocked), TRANSIENT_RETRIES - attempt
  {
    AgainUsesUp(out, l, c, token, rotated, attempt);
    RequestTakes(out, l, c, token, rotated, attempt);
    var next := OneRequest(out, l, c, token, rotated, attempt);
    if next.Again? {
      OneRequestPaces(l, c, token, next.line, next.clock);
      FetchPaces(out, next.line, next.clock, token, next.rotated, next.attempt);
      var e := Fetch(out, next.line, next.clock, token, next.rotated, next.attempt);
      PacesOn(l, c, next.line, next.clock, e.line, e.clock);
    } else {
      OneRequestPaces(l, c, token, next.end.line, next.end.clock);
    }
  }

  // ---------------------------------------------------------------------------------------------
  // One stage: why it ends
  // ---------------------------------------------------------------------------------------------

  /** The last request was unreadable or invalid. */
  predicate Useless(answer: Answer) {
    answer.Unreadable? || answer.Invalid?
  }

  /** The request at i was made after a rotation, from request `from` on, for the same page. */
  ghost predicate Newcomer(asked: seq<Request>, from: nat, i: nat) {
    i < |asked| && exists j :: from <= j < i && SamePage(asked, j, i) && asked[j].identity != asked[i].identity
  }

  ghost predicate SamePage(asked: seq<Request>, j: nat, i: nat)
    requires j <= i < |asked|
  {
    forall k :: j <= k <= i ==> asked[k].token == asked[i].token
  }

  /** Something was asked since. */
  predicate AskedSince(l: Line, t: Line) {
    |t.asked| > |l.asked|
  }

  /**
   * Why a stage ended, read off the outside: refused on a refusal; out of time on a passed deadline or an
   * interrupted sleep; failed for want of a URL, or on an invalid answer or failures; unreadable on an unreadable
   * one; each with what the answer said. Short of these it was full, at the end, or had used its page budget up.
   */
  ghost predicate EndsForAReason(out: Outside, l: Line, c: Clock, e: StageEnd) {
    var o, asked := e.outcome, AskedSince(l, e.line);
    var timeUp, noUrl := Late(out, c, e.clock) || CutShort(out, c, e.clock), NoUrl(out, c, e.clock);
    && AllButLastWell(out, c, e.clock)
    && l.asked <= e.line.asked && e.line.rotating == l.rotating
    && (o.reason.Blocked? <==> asked && Last(e.line).Refused?)
    && (o.reason.Budget? <==> !o.reason.Blocked? && timeUp)
    && (o.reason.ParseError? <==> asked && Last(e.line).Unreadable? && !timeUp && !noUrl)
    && (o.reason.Failed? <==> noUrl || (asked && (Last(e.line).Invalid? || Last(e.line).Transient?) && !timeUp))
    && (noUrl ==> o == Stop(Failed, Said(out.urlError(e.clock.urls - 1).value)))
    && (o.reason.Budget? ==> o == Stop(Budget, NoDetail))
  }

  /** And with what detail, and whether marked as after a rotation. */
  ghost predicate EndsWithDetail(out: Outside, l: Line, c: Clock, e: StageEnd) {
    var o, asked := e.outcome, AskedSince(l, e.line);
    var timeUp, noUrl := Late(out, c, e.clock) || CutShort(out, c, e.clock), NoUrl(out, c, e.clock);
    && (asked && Last(e.line).Refused? ==>
          o == Stop(Blocked, if l.rotating then EveryIdentityRefused(Last(e.line).detail) else Said(Last(e.line).detail)))
    && (asked && !timeUp && !noUrl && (Useless(Last(e.line)) || Last(e.line).Transient?) ==>
          o.detail == Said(Last(e.line).detail))
    && (asked && !timeUp && !noUrl && Last(e.line).Transient? ==> Failing(e.line, 3) && NoneLeft(e.line))
    && (o.afterRotation <==>
          asked && !timeUp && !noUrl && Useless(Last(e.line)) && Newcomer(e.line.asked, |l.asked|, |e.line.asked| - 1))
  }

  /** With nothing asked, the stage was out of time, had no URL, or its page budget was used up before. */
  ghost predicate SaysWhyNotAsked(out: Outside, l: Line, c: Clock, p: Progress, budget: nat, e: StageEnd) {
    !AskedSince(l, e.line) ==>
      Late(out, c, e.clock) || NoUrl(out, c, e.clock) || (OutOfPages(e.outcome) && |Turns(p)| >= budget)
  }

  /** The first request of the stage is for the page at its token, as the identity then in use. */
  ghost predicate StartsAt(l: Line, p: Progress, e: StageEnd) {
    AskedSince(l, e.line) ==> e.line.asked[|l.asked|].token == p.token && e.line.asked[|l.asked|].identity == l.cur
  }

  // What one page and its answers come to.

  ghost predicate FetchFacts(out: Outside, l: Line, c: Clock, token: Token, e: FetchEnd) {
    && AsksFor(l, token, e.line)
    && PageHeeds(out, c, e.clock, Last(e.line), l.rotating, e.result)
    && EndsOn(Last(e.line), l.rotating, Newcomer(e.line.asked, |l.asked|, |e.line.asked| - 1), e.result)
    && FailsAfterThree(e)
  }

  lemma NewcomerOnThePage(l: Line, token: Token, t: Line)
    requires AsksFor(l, token, t)
    ensures t.rotations > l.rotations <==> Newcomer(t.asked, |l.asked|, |t.asked| - 1)
  {
    var i := |t.asked| - 1;
    if t.rotations > l.rotations {
      assert SamePage(t.asked, |l.asked|, i);
      assert t.asked[|l.asked|].identity != t.asked[i].identity;
    }
  }

  lemma FetchHasFacts(out: Outside, l: Line, c: Clock, token: Token)
    requires Usable(l)
    ensures FetchFacts(out, l, c, token, Fetch(out, l, c, token, false, 0))
  {
    FetchAsksFor(out, l, c, token, false, 0);
    FetchHeeds(out, l, c, token, false, 0);
    FetchEndsOnTheAnswer(out, l, c, token, false, 0);
    FetchFailsAfterThree(out, l, c, token, false, 0);
    NewcomerOnThePage(l, token, Fetch(out, l, c, token, false, 0).line);
  }

  /** The stage ends where the page did, but for an id asked for in vain. */
  lemma FailureEndsStage(out: Outside, l: Line, c: Clock, token: Token, e: FetchEnd, d: Clock, p: Progress)
    requires FetchFacts(out, l, c, token, e) && e.result.Stopped?
    requires d == e.clock || (d == e.clock.(ids := e.clock.ids + 1) && out.idFails(e.clock.ids))
    ensures var end := StageEnd(e.line, d, p, e.result.outcome);
      EndsForAReason(out, l, c, end) && EndsWithDetail(out, l, c, end)
  {
  }

  lemma PageEndsStage(out: Outside, l: Line, c: Clock, token: Token, e: FetchEnd, d: Clock, p: Progress, o: Outcome)
    requires FetchFacts(out, l, c, token, e) && e.result.Got?
    requires AllButLastWell(out, c, d) && !Late(out, c, d) && !NoUrl(out, c, d)
    requires CutShort(out, c, d) <==> o == Stop(Budget, NoDetail)
    requires o == Stop(Budget, NoDetail) || o == Stop(Cap, NoDetail) || o == Stop(Exhausted, NoDetail)
    ensures var end := StageEnd(e.line, d, p, o);
      EndsForAReason(out, l, c, end) && EndsWithDetail(out, l, c, end)
  {
  }

  lemma GuardEndsStage(out: Outside, l: Line, c: Clock, p: Progress, budget: nat)
    requires BeforeRequest(out, c, p, budget).stop.Some?
    ensures var g := BeforeRequest(out, c, p, budget);
      var end := StageEnd(l, g.clock, p, g.stop.value);
      EndsForAReason(out, l, c, end) && EndsWithDetail(out, l, c, end) && SaysWhyNotAsked(out, l, c, p, budget, end)
  {
  }

  lemma FromBefore(out: Outside, l: Line, c: Clock, d: Clock, e: StageEnd)
    requires AllWell(out, c, d) && EndsForAReason(out, l, d, e) && EndsWithDetail(out, l, d, e)
    ensures EndsForAReason(out, l, c, e) && EndsWithDetail(out, l, c, e)
  {
    WellThenOn(out, c, d, e.clock);
  }

  // The rounds of a stage.

  /** A round led on: nothing went wrong outside, and it read a page or starts the listing again. */
  ghost predicate LeadsOnWell(out: Outside, l: Line, c: Clock, p: Progress, round: Round)
    requires round.On?
  {
    && AllWell(out, c, round.clock)
    && AsksFor(l, p.token, round.line)
    && (if round.progress.restarts == p.restarts then Last(round.line).Read?
        else Useless(Last(round.line)) && |Turns(round.progress)| < round.budget)
  }

  /** A page got: the round leads on well, or ends the stage. */
  lemma PageRound(out: Outside, cap: nat, l: Line, c: Clock, e: FetchEnd, p: Progress, budget: nat)
    requires FetchFacts(out, l, c, p.token, e) && e.result.Got?
    ensures var round := AfterFetch(out, cap, e, p, budget);
      if round.On? then LeadsOnWell(out, l, c, p, round)
      else EndsForAReason(out, l, c, round.end) && EndsWithDetail(out, l, c, round.end)
  {
    var round := AfterFetch(out, cap, e, p, budget);
    if round.Ended? {
      PageEndsStage(out, l, c, p.token, e, round.end.clock, round.end.progress, round.end.outcome);
    }
  }

  /** No page: the same. */
  lemma FailureRound(out: Outside, cap: nat, l: Line, c: Clock, e: FetchEnd, p: Progress, budget: nat)
    requires FetchFacts(out, l, c, p.token, e) && e.result.Stopped? && |Turns(p)| < budget
    ensures var round := AfterFetch(out, cap, e, p, budget);
      if round.On? then LeadsOnWell(out, l, c, p, round)
      else EndsForAReason(out, l, c, round.end) && EndsWithDetail(out, l, c, round.end)
  {
    var round := AfterFetch(out, cap, e, p, budget);
    if round.Ended? {
      FailureEndsStage(out, l, c, p.token, e, round.end.clock, p);
    } else {
      assert Turns(Restarted(p)) == Turns(p);
    }
  }

  /** Before the page is asked for: one look and one URL, both well, or the end of the stage. */
  lemma GuardIsWell(out: Outside, c: Clock, p: Progress, budget: nat)
    ensures var g := BeforeRequest(out, c, p, budget);
      g.stop.None? ==>
        AllWell(out, c, g.clock) && g.clock == c.(looks := c.looks + 1, urls := c.urls + 1) && |Turns(p)| < budget
  {
  }

  /** What a round is, when the page is asked for. */
  lemma AskedRound(out: Outside, cap: nat, l: Line, c: Clock, p: Progress, budget: nat)
    requires Usable(l) && BeforeRequest(out, c, p, budget).stop.None?
    ensures var d, round := BeforeRequest(out, c, p, budget).clock, OneRound(out, cap, l, c, p, budget);
      if round.On? then LeadsOnWell(out, l, d, p, round)
      else
        && EndsForAReason(out, l, d, round.end) && EndsWithDetail(out, l, d, round.end)
        && AskedSince(l, round.end.line) && StartsAt(l, p, round.end)
  {
    var d := BeforeRequest(out, c, p, budget).clock;
    var e := Fetch(out, l, d, p.token, false, 0);
    GuardIsWell(out, c, p, budget);
    FetchHasFacts(out, l, d, p.token);
    if e.result.Got? {
      PageRound(out, cap, l, d, e, p, budget);
    } else {
      FailureRound(out, cap, l, d, e, p, budget);
    }
    EndsOnTheLine(out, cap, e, p, budget);
  }

  lemma EndsOnTheLine(out: Outside, cap: nat, e: FetchEnd, p: Progress, budget: nat)
    ensures var round := AfterFetch(out, cap, e, p, budget);
      round.Ended? ==> round.end.line == e.line
  {
  }

  /** Everything said of how a stage ends. */
  ghost predicate StageEnds(out: Outside, l: Line, c: Clock, p: Progress, budget: nat, e: StageEnd) {
    && EndsForAReason(out, l, c, e) && EndsWithDetail(out, l, c, e)
    && SaysWhyNotAsked(out, l, c, p, budget, e) && StartsAt(l, p, e)
  }

  ghost predicate RoundEnds(out: Outside, l: Line, c: Clock, p: Progress, budget: nat, round: Round) {
    match round
    case On(_, _, _, _) => LeadsOnWell(out, l, c, p, round)
    case Ended(end) => StageEnds(out, l, c, p, budget, end)
  }

  lemma OneRoundEnds(out: Outside, cap: nat, l: Line, c: Clock, p: Progress, budget: nat)
    requires Usable(l)
    ensures RoundEnds(out, l, c, p, budget, OneRound(out, cap, l, c, p, budget))
  {
    var g, round := BeforeRequest(out, c, p, budget), OneRound(out, cap, l, c, p, budget);
    if g.stop.Some? {
      GuardEndsStage(out, l, c, p, budget);
    } else {
      GuardIsWell(out, c, p, budget);
      AskedRound(out, cap, l, c, p, budget);
      if round.On? {
        WellAndWell(out, c, g.clock, round.clock);
      } else {
        FromBefore(out, l, c, g.clock, round.end);
      }
    }
  }

  /** The next page is another one. */
  lemma TokenMovesOn(out: Outside, cap: nat, l: Line, c: Clock, p: Progress, budget: nat)
    requires Usable(l) && AtHead(p)
    ensures var round := OneRound(out, cap, l, c, p, budget);
      round.On? ==> round.progress.token != p.token
  {
  }

  /** No rotation of an earlier page makes a newcomer for a later one. */
  lemma NewcomerFurtherOn(asked: seq<Request>, from: nat, later: nat, i: nat)
    requires from < later <= i < |asked| && asked[later - 1].token != asked[later].token
    ensures Newcomer(asked, from, i) <==> Newcomer(asked, later, i)
  {
    assert asked[later - 1].token != asked[i].token || asked[later].token != asked[i].token;
  }

  lemma ReasonFurtherOn(out: Outside, l: Line, c: Clock, p: Progress, round: Round, e: StageEnd)
    requires round.On? && LeadsOnWell(out, l, c, p, round)
    requires EndsForAReason(out, round.line, round.clock, e)
    requires SaysWhyNotAsked(out, round.line, round.clock, round.progress, round.budget, e)
    ensures EndsForAReason(out, l, c, e)
  {
    WellThenOn(out, c, round.clock, e.clock);
    LastStays(round.line, e.line);
  }

  lemma LastStays(u: Line, t: Line)
    requires u.asked != [] && u.asked <= t.asked
    ensures !AskedSince(u, t) ==> t.asked == u.asked && Last(t) == Last(u)
  {
  }

  lemma DetailFurtherOn(out: Outside, l: Line, c: Clock, p: Progress, round: Round, e: StageEnd)
    requires round.On? && LeadsOnWell(out, l, c, p, round) && round.progress.token != p.token
    requires EndsForAReason(out, round.line, round.clock, e) && EndsWithDetail(out, round.line, round.clock, e)
    requires SaysWhyNotAsked(out, round.line, round.clock, round.progress, round.budget, e)
    requires StartsAt(round.line, round.progress, e)
    ensures EndsWithDetail(out, l, c, e)
  {
    WellThenOn(out, c, round.clock, e.clock);
    LastStays(round.line, e.line);
    if AskedSince(round.line, e.line) {
      NewcomerFurtherOn(e.line.asked, |l.asked|, |round.line.asked|, |e.line.asked| - 1);
    }
  }

  lemma StageFurtherOn(out: Outside, l: Line, c: Clock, p: Progress, budget: nat, round: Round, e: StageEnd)
    requires round.On? && LeadsOnWell(out, l, c, p, round) && round.progress.token != p.token
    requires StageEnds(out, round.line, round.clock, round.progress, round.budget, e)
    ensures StageEnds(out, l, c, p, budget, e)
  {
    ReasonFurtherOn(out, l, c, p, round, e);
    DetailFurtherOn(out, l, c, p, round, e);
    assert e.line.asked[|l.asked|] == round.line.asked[|l.asked|];
  }

  /** Why every stage ends. */
  lemma {:induction false} StageEndsForAReason(out: Outside, cap: nat, l: Line, c: Clock, p: Progress, budget: nat)
    requires Usable(l) && MayReadOn(cap, p)
    ensures StageEnds(out, l, c, p, budget, RunStage(out, cap, l, c, p, budget))
    decreases if p.restarts == 0 then 1 else 0, if |Turns(p)| < budget then budget - |Turns(p)| else 0
  {
    OnUsesUp(out, cap, l, c, p, budget);
    OneRoundEnds(out, cap, l, c, p, budget);
    var round := OneRound(out, cap, l, c, p, budget);
    if round.On? {
      RoundKeepsChain(out, cap, l, c, p, budget);
      TokenMovesOn(out, cap, l, c, p, budget);
      StageEndsForAReason(out, cap, round.line, round.clock, round.progress, round.budget);
      StageFurtherOn(out, l, c, p, budget, round, RunStage(out, cap, round.line, round.clock, round.progress, round.budget));
    }
  }

  // ---------------------------------------------------------------------------------------------
  // One stage: when it starts the listing again
  // ---------------------------------------------------------------------------------------------

  /** Request i called for starting again: unreadable or invalid, past the first page, made after a rotation. */
  ghost predicate CallsForRestart(asked: seq<Request>, from: nat, i: nat) {
    i < |asked| && Useless(asked[i].answer) && asked[i].token != "" && Newcomer(asked, from, i)
  }

  /** The listing was started again at request i: the next, if any, is for the first page, as the same identity. */
  ghost predicate RestartsAt(asked: seq<Request>, from: nat, i: nat) {
    && CallsForRestart(asked, from, i)
    && (i + 1 < |asked| ==> asked[i + 1].token == "" && asked[i + 1].identity == asked[i].identity)
  }

  ghost predicate SomeRestart(asked: seq<Request>, from: nat) {
    exists i: nat :: from <= i && RestartsAt(asked, from, i)
  }

  /**
   * A stage that ends on a failure after a rotation had nothing to go back to, had started again already, or
   * could not have the new request id; it starts again only on such a failure past the first page, and takes
   * one request id each time it tries to.
   */
  ghost predicate RestartsRightly(out: Outside, l: Line, c: Clock, p: Progress, e: StageEnd) {
    && l.asked <= e.line.asked && c.ids <= e.clock.ids && p.restarts <= e.progress.restarts
    && (e.outcome.afterRotation ==> e.progress.token == "" || e.progress.restarts >= 1 || NoId(out, c, e.clock))
    && (e.progress.restarts > p.restarts ==> SomeRestart(e.line.asked, |l.asked|))
    && e.clock.ids - c.ids == e.progress.restarts - p.restarts + if NoId(out, c, e.clock) then 1 else 0
  }

  /** The round that starts again, and any other. */
  ghost predicate RoundRestarts(out: Outside, l: Line, c: Clock, p: Progress, round: Round) {
    match round
    case On(line, clock, progress, _) =>
      && Usable(line) && p.restarts <= progress.restarts <= p.restarts + 1
      && clock.ids - c.ids == progress.restarts - p.restarts
      && (forall k :: c.ids <= k < clock.ids ==> !out.idFails(k))
      && (progress.restarts > p.restarts ==>
            && |line.asked| > |l.asked| && CallsForRestart(line.asked, |l.asked|, |line.asked| - 1)
            && line.asked[|line.asked| - 1].identity == line.cur && progress.token == "")
    case Ended(end) => RestartsRightly(out, l, c, p, end) && end.progress.restarts == p.restarts
  }

  lemma FailureRestarts(out: Outside, cap: nat, l: Line, c: Clock, e: FetchEnd, p: Progress, budget: nat)
    requires FetchFacts(out, l, c, p.token, e) && e.result.Stopped?
    requires e.result.outcome.afterRotation ==> Usable(e.line) && e.line.asked[|e.line.asked| - 1].identity == e.line.cur
    ensures RoundRestarts(out, l, c, p, AfterFetch(out, cap, e, p, budget))
  {
  }

  lemma PageRestartsNothing(out: Outside, cap: nat, l: Line, c: Clock, e: FetchEnd, p: Progress, budget: nat)
    requires FetchFacts(out, l, c, p.token, e) && e.result.Got? && Usable(e.line)
    ensures RoundRestarts(out, l, c, p, AfterFetch(out, cap, e, p, budget))
  {
  }

  /** A page that is not given up on was last asked for as the identity in use. */
  ghost predicate AsTheOneInUse(e: FetchEnd) {
    && e.line.asked != []
    && (e.result.Got? || e.result.outcome.afterRotation ==> e.line.asked[|e.line.asked| - 1].identity == e.line.cur)
  }

  lemma OverAsTheOneInUse(out: Outside, l: Line, c: Clock, token: Token, rotated: bool, attempt: nat)
    requires Usable(l) && OneRequest(out, l, c, token, rotated, attempt).Over?
    ensures AsTheOneInUse(OneRequest(out, l, c, token, rotated, attempt).end)
  {
  }

  lemma {:induction false} FetchAsTheOneInUse(out: Outside, l: Line, c: Clock, token: Token, rotated: bool, attempt: nat)
    requires Usable(l) && attempt <= TRANSIENT_RETRIES
    ensures AsTheOneInUse(Fetch(out, l, c, token, rotated, attempt))
    decreases Unrefused(l.blocked), TRANSIENT_RETRIES - attempt
  {
    AgainUsesUp(out, l, c, token, rotated, attempt);
    var next := OneRequest(out, l, c, token, rotated, attempt);
    if next.Again? {
      FetchAsTheOneInUse(out, next.line, next.clock, token, next.rotated, next.attempt);
    } else {
      OverAsTheOneInUse(out, l, c, token, rotated, attempt);
    }
  }

  lemma OneRoundRestarts(out: Outside, cap: nat, l: Line, c: Clock, p: Progress, budget: nat)
    requires Usable(l)
    ensures RoundRestarts(out, l, c, p, OneRound(out, cap, l, c, p, budget))
  {
    var g, round := BeforeRequest(out, c, p, budget), OneRound(out, cap, l, c, p, budget);
    if g.stop.None? {
      var e := Fetch(out, l, g.clock, p.token, false, 0);
      GuardIsWell(out, c, p, budget);
      FetchHasFacts(out, l, g.clock, p.token);
      FetchAsTheOneInUse(out, l, g.clock, p.token, false, 0);
      if e.result.Got? {
        PageRestartsNothing(out, cap, l, g.clock, e, p, budget);
      } else {
        FailureRestarts(out, cap, l, g.clock, e, p, budget);
      }
    }
  }

  lemma CallStays(asked: seq<Request>, more: seq<Request>, from: nat, low: nat, i: nat)
    requires asked <= more && low <= from && CallsForRestart(asked, from, i)
    ensures CallsForRestart(more, low, i)
  {
    var j :| from <= j < i && SamePage(asked, j, i) && asked[j].identity != asked[i].identity;
    assert SamePage(more, j, i);
  }

  lemma RestartsFurtherOn(out: Outside, l: Line, c: Clock, p: Progress, round: Round, e: StageEnd)
    requires round.On? && RoundRestarts(out, l, c, p, round) && l.asked <= round.line.asked
    requires RestartsRightly(out, round.line, round.clock, round.progress, e) && StartsAt(round.line, round.progress, e)
    ensures RestartsRightly(out, l, c, p, e)
  {
    if round.progress.restarts > p.restarts {
      var i := |round.line.asked| - 1;
      CallStays(round.line.asked, e.line.asked, |l.asked|, |l.asked|, i);
      assert RestartsAt(e.line.asked, |l.asked|, i);
    } else if e.progress.restarts > round.progress.restarts {
      var i: nat :| |round.line.asked| <= i && RestartsAt(e.line.asked, |round.line.asked|, i);
      CallStays(e.line.asked, e.line.asked, |round.line.asked|, |l.asked|, i);
      assert RestartsAt(e.line.asked, |l.asked|, i);
    }
  }

  /** When every stage starts the listing again, and when it could not. */
  lemma {:induction false} StageRestartsRightly(out: Outside, cap: nat, l: Line, c: Clock, p: Progress, budget: nat)
    requires Usable(l) && MayReadOn(cap, p)
    ensures RestartsRightly(out, l, c, p, RunStage(out, cap, l, c, p, budget))
    decreases if p.restarts == 0 then 1 else 0, if |Turns(p)| < budget then budget - |Turns(p)| else 0
  {
    OnUsesUp(out, cap, l, c, p, budget);
    OneRoundRestarts(out, cap, l, c, p, budget);
    var round := OneRound(out, cap, l, c, p, budget);
    if round.On? {
      RoundKeepsChain(out, cap, l, c, p, budget);
      OneRoundEnds(out, cap, l, c, p, budget);
      StageEndsForAReason(out, cap, round.line, round.clock, round.progress, round.budget);
      StageRestartsRightly(out, cap, round.line, round.clock, round.progress, round.budget);
      RestartsFurtherOn(out, l, c, p, round, RunStage(out, cap, round.line, round.clock, round.progress, round.budget));
    }
  }

  // ---------------------------------------------------------------------------------------------
  // One stage: its looks, URLs, sleeps and pace
  // ---------------------------------------------------------------------------------------------

  /**
   * For every page read the deadline was looked at and a URL made, besides the looks the answers call for; there
   * was a sleep between any two pages, besides one before each retry; and the pause grew with each failure.
   */
  ghost predicate StagePaces(l: Line, c: Clock, p: Progress, t: Line, d: Clock, q: Progress) {
    && |Turns(p)| <= |Turns(q)| && l.asked <= t.asked && Failures(l.asked) <= Failures(t.asked)
    && d.looks - c.looks >= LooksFor(t.asked, l.rotating) - LooksFor(l.asked, l.rotating) + |Turns(q)| - |Turns(p)|
    && d.urls - c.urls >= |Turns(q)| - |Turns(p)|
    && d.sleeps - c.sleeps >= Retries(t.asked) - Retries(l.asked) + |Turns(q)| - |Turns(p)| - 1
    && d.pace == Paced(c.pace, Failures(t.asked) - Failures(l.asked))
  }

  /** As above, with a sleep after every page: the next one is still to be asked for. */
  ghost predicate RoundPaces(l: Line, c: Clock, p: Progress, round: Round) {
    match round
    case On(t, d, q, _) =>
      && StagePaces(l, c, p, t, d, q) && t.rotating == l.rotating && !RetryDue(t)
      && d.sleeps - c.sleeps >= Retries(t.asked) - Retries(l.asked) + |Turns(q)| - |Turns(p)|
    case Ended(e) => StagePaces(l, c, p, e.line, e.clock, e.progress)
  }

  lemma NothingPaces(l: Line, c: Clock, p: Progress, d: Clock)
    requires d.looks >= c.looks && d.urls >= c.urls && d.sleeps >= c.sleeps && d.pace == c.pace
    ensures StagePaces(l, c, p, l, d, p)
  {
  }

  /** The page was asked for with one look and one URL more, and no retry is due after it. */
  ghost predicate AskedPaces(l: Line, c: Clock, e: FetchEnd) {
    && Paces(l, c.(looks := c.looks + 1, urls := c.urls + 1), false, e.line, e.clock) && e.clock.urls == c.urls + 1
    && l.asked < e.line.asked && e.line.rotating == l.rotating
    && (Last(e.line).Transient? ==> e.result.Stopped? && !e.result.outcome.afterRotation)
  }

  lemma GotPaces(out: Outside, cap: nat, l: Line, c: Clock, e: FetchEnd, p: Progress, budget: nat)
    requires AskedPaces(l, c, e) && e.result.Got?
    ensures RoundPaces(l, c, p, AfterFetch(out, cap, e, p, budget))
  {
    assert Turns(ReadOn(p, e.result.page)) == Turns(p) + [Turn(p.token, e.result.page)];
  }

  lemma StoppedPaces(out: Outside, cap: nat, l: Line, c: Clock, e: FetchEnd, p: Progress, budget: nat)
    requires AskedPaces(l, c, e) && e.result.Stopped?
    ensures RoundPaces(l, c, p, AfterFetch(out, cap, e, p, budget))
  {
    assert Turns(Restarted(p)) == Turns(p);
  }

  lemma OneRoundPacesWell(out: Outside, cap: nat, l: Line, c: Clock, p: Progress, budget: nat)
    requires Usable(l) && !RetryDue(l)
    ensures RoundPaces(l, c, p, OneRound(out, cap, l, c, p, budget))
  {
    var g := BeforeRequest(out, c, p, budget);
    if g.stop.Some? {
      NothingPaces(l, c, p, g.clock);
    } else {
      GuardIsWell(out, c, p, budget);
      FetchPaces(out, l, g.clock, p.token, false, 0);
      FetchHasFacts(out, l, g.clock, p.token);
      var e := Fetch(out, l, g.clock, p.token, false, 0);
      if e.result.Got? {
        GotPaces(out, cap, l, c, e, p, budget);
      } else {
        StoppedPaces(out, cap, l, c, e, p, budget);
      }
    }
  }

  lemma StagePacesOn(l: Line, c: Clock, p: Progress, u: Line, d: Clock, q: Progress, t: Line, e: Clock, r: Progress)
    requires StagePaces(l, c, p, u, d, q) && StagePaces(u, d, q, t, e, r) && u.rotating == l.rotating
    requires d.sleeps - c.sleeps >= Retries(u.asked) - Retries(l.asked) + |Turns(q)| - |Turns(p)|
    ensures StagePaces(l, c, p, t, e, r)
  {
    PacedOn(c.pace, Failures(u.asked) - Failures(l.asked), Failures(t.asked) - Failures(u.asked));
  }

  lemma {:induction false} StagePacesWell(out: Outside, cap: nat, l: Line, c: Clock, p: Progress, budget: nat)
    requires Usable(l) && !RetryDue(l)
    ensures var e := RunStage(out, cap, l, c, p, budget);
      StagePaces(l, c, p, e.line, e.clock, e.progress)
    decreases if p.restarts == 0 then 1 else 0, if |Turns(p)| < budget then budget - |Turns(p)| else 0
  {
    OnUsesUp(out, cap, l, c, p, budget);
    OneRoundPacesWell(out, cap, l, c, p, budget);
    var round := OneRound(out, cap, l, c, p, budget);
    if round.On? {
      StagePacesWell(out, cap, round.line, round.clock, round.progress, round.budget);
      var e := RunStage(out, cap, round.line, round.clock, round.progress, round.budget);
      StagePacesOn(l, c, p, round.line, round.clock, round.progress, e.line, e.clock, e.progress);
    }
  }

  // ---------------------------------------------------------------------------------------------
  // The run: its requests
  // ---------------------------------------------------------------------------------------------

  /** All that is said of one stage of a run, from an unused route on. */
  ghost predicate StageAsSaid(g: Given, l: Line, c: Clock, p: Progress, e: StageEnd) {
    && StageEnds(g.out, l, c, p, g.budget, e) && RestartsRightly(g.out, l, c, p, e)
    && StagePaces(l, c, p, e.line, e.clock, e.progress)
  }

  lemma StageIsAsSaid(g: Given, l: Line, c: Clock, p: Progress)
    requires Unused(l) && MayReadOn(g.cap, p)
    ensures StageAsSaid(g, l, c, p, RunStage(g.out, g.cap, l, c, p, g.budget))
  {
    StageEndsForAReason(g.out, g.cap, l, c, p, g.budget);
    StageRestartsRightly(g.out, g.cap, l, c, p, g.budget);
    StagePacesWell(g.out, g.cap, l, c, p, g.budget);
  }

  /** How the browser's stage leaves things, or nothing when there is none. */
  function AfterBrowser(g: Given): RequestsEnd
    requires MayBeUsed(g.browser)
  {
    BrowserStage(g.out, g.cap, g.browser, g.http, AfterID(g), g.budget)
  }

  /**
   * How the requests of every run ended: without an id, or a route, in those words; otherwise as the last of its
   * stages did, each of them for its reason, the proxies' starting where the browser's left off.
   */
  lemma RequestsEndForAReason(g: Given)
    requires Starts(g)
    ensures var run, first := Collect(g), AfterBrowser(g);
      var r := run.requests;
      if g.out.idFails(g.clock.ids) then
        && run.last == run.outcome == Stop(Failed, NoRequestId) && run.stage == RpcBrowser && run.stages == []
        && run.stream == [] && r.browser == g.browser && r.http == g.http
      else if r.lastStage.NoStage? then g.browser.None? && g.http.None? && run.last == Stop(Failed, NoReviewRoute)
      else
        && run.last == r.last
        && (g.browser.Some? ==>
              StageAsSaid(g, g.browser.value, AfterID(g), START, StageEnd(r.browser.value, first.clock, first.progress, first.last)))
        && (r.lastStage.RpcBrowser? ==> g.browser.Some? && r.clock == first.clock && r.progress == first.progress && r.last == first.last)
        && (!r.lastStage.RpcBrowser? ==>
              r.lastStage.RpcHttp? && g.http.Some? &&
              StageAsSaid(g, g.http.value, first.clock, first.progress, StageEnd(r.http.value, r.clock, r.progress, r.last)))
  {
    if !g.out.idFails(g.clock.ids) {
      BrowserKeepsChain(g.out, g.cap, g.browser, g.http, AfterID(g), g.budget);
      NothingHeldAtFirst(g.cap);
      if g.browser.Some? {
        StageIsAsSaid(g, g.browser.value, AfterID(g), START);
        StageStops(g.out, g.cap, g.browser.value, AfterID(g), START, g.budget);
      }
      if g.http.Some? && !EndsTheRun(AfterBrowser(g).last.reason) {
        StageIsAsSaid(g, g.http.value, AfterBrowser(g).clock, AfterBrowser(g).progress);
      }
    }
  }

  /** Nothing to go back to, started again already, or no id to do it with. */
  ghost predicate CannotRestart(out: Outside, c: Clock, p: Progress, d: Clock) {
    p.token == "" || p.restarts >= 1 || NoId(out, c, d)
  }

  lemma CannotEither(out: Outside, b: Clock, l: Line, c: Clock, p: Progress, e: StageEnd)
    requires RestartsRightly(out, l, c, p, e) && b.ids <= c.ids
    ensures e.outcome.afterRotation ==> CannotRestart(out, b, e.progress, e.clock)
  {
  }

  /** What the two stages of a run say of it. */
  lemma StagesRestartRightly(g: Given)
    requires Starts(g)
    ensures var first, r := AfterBrowser(g), RunStages(g.out, g.cap, g.browser, g.http, AfterID(g), g.budget);
      && AfterID(g).ids <= first.clock.ids
      && (first.last.afterRotation ==> CannotRestart(g.out, AfterID(g), first.progress, first.clock))
      && (first.progress.restarts > 0 ==> SomeRestart(AskedOn(first.browser), 0))
      && (r != first ==> r.browser == first.browser)
      && (r != first && r.last.afterRotation ==> CannotRestart(g.out, AfterID(g), r.progress, r.clock))
      && (r != first && r.progress.restarts > first.progress.restarts ==> SomeRestart(AskedOn(r.http), 0))
  {
    BrowserKeepsChain(g.out, g.cap, g.browser, g.http, AfterID(g), g.budget);
    NothingHeldAtFirst(g.cap);
    if g.browser.Some? {
      StageRestartsRightly(g.out, g.cap, g.browser.value, AfterID(g), START, g.budget);
    }
    var first := AfterBrowser(g);
    if g.http.Some? && !EndsTheRun(first.last.reason) {
      SecondRestartsRightly(g, g.http.value, first);
    }
  }

  lemma SecondRestartsRightly(g: Given, l: Line, first: RequestsEnd)
    requires Unused(l) && MayReadOn(g.cap, first.progress) && AfterID(g).ids <= first.clock.ids
    ensures var r := HttpStage(g.out, g.cap, l, first, g.budget);
      && r.browser == first.browser
      && (r.last.afterRotation ==> CannotRestart(g.out, AfterID(g), r.progress, r.clock))
      && (r.progress.restarts > first.progress.restarts ==> SomeRestart(AskedOn(r.http), 0))
  {
    StageRestartsRightly(g.out, g.cap, l, first.clock, first.progress, g.budget);
    CannotEither(g.out, AfterID(g), l, first.clock, first.progress, RunStage(g.out, g.cap, l, first.clock, first.progress, g.budget));
  }

  /**
   * So of the whole run: ended on a failure after a rotation, it had nothing to go back to, had started the
   * listing again, or had asked for a request id in vain; and it started again only on such a failure.
   */
  lemma RunRestartsRightly(g: Given)
    requires Starts(g)
    ensures var r := Collect(g).requests;
      && (r.last.afterRotation ==>
            r.progress.token == "" || r.progress.restarts >= 1 || NoId(g.out, AfterID(g), r.clock))
      && (r.progress.restarts > 0 ==> SomeRestart(AskedOn(r.browser), 0) || SomeRestart(AskedOn(r.http), 0))
  {
    CollectRequests(g);
    StagesRestartRightly(g);
  }

  // ---------------------------------------------------------------------------------------------
  // The run: where it ends
  // ---------------------------------------------------------------------------------------------

  /** What a scroll leaves, in the order it is asked. */
  ghost predicate EndsAfterScroll(g: Given, r: Run) {
    var late, full := g.out.late(r.requests.clock.looks + 1), Held(g.cap, r.stream) >= g.cap;
    var enough := (g.reported > 0 && Held(g.cap, r.stream) >= g.reported) || r.last.reason.Exhausted?;
    && (r.stage == Dom && r.outcome == Stop(Budget, NoDetail) <==> late)
    && (!late ==> (r.stage == Dom && r.outcome == Stop(Cap, NoDetail) <==> full))
    && (!late && !full ==> (r.stage == Dom && r.outcome == Stop(Exhausted, NoDetail) <==> enough))
    && (!late && !full && !enough ==> r.outcome == r.last && r.stage == r.requests.lastStage)
  }

  lemma FinishedEnds(g: Given, requests: RequestsEnd)
    requires Dom !in requests.stages && requests.lastStage != Dom
    ensures var r := Finished(g.out, g.cap, g.reported, requests, g.dom);
      if Dom in r.stages then EndsAfterScroll(g, r) else r.outcome == r.last && r.stage == requests.lastStage
  {
  }

  /**
   * Where every run ends. With the page scrolled: out of time if and only if the deadline had passed by then;
   * in time, full if and only if the rows are at the cap; below it, exhausted if and only if the known count is
   * held or pagination had come to an end; otherwise, a refusal included, as and where the requests ended, which
   * is how it ends without a scroll too.
   */
  lemma RunEndsExactly(g: Given)
    requires Ready(g)
    ensures var r := Collect(g);
      if Dom in r.stages then EndsAfterScroll(g, r)
      else r.outcome == r.last && r.stage == if g.out.idFails(g.clock.ids) then RpcBrowser else r.requests.lastStage
  {
    if !g.out.idFails(g.clock.ids) {
      StagesGoneThrough(g);
      CollectFinishes(g);
      FinishedEnds(g, Collect(g).requests);
    }
  }

  /** What the report says of it. */
  lemma ReportEndsExactly(g: Given)
    requires Ready(g)
    ensures var r := Collect(g);
      var report := ReportOf(g.cap, g.reported, r);
      var scrolled, late := Dom in report.stages, g.out.late(r.requests.clock.looks + 1);
      var rows := report.rpcReviews + report.domReviews;
      if scrolled && late then report.stopReason.Budget? && report.stopStage == Dom && report.stopDetail == NoDetail
      else if scrolled && rows >= g.cap then report.stopReason.Cap? && report.stopStage == Dom && report.stopDetail == NoDetail
      else if scrolled && ((g.reported > 0 && rows >= g.reported) || r.last.reason.Exhausted?) then
        report.stopReason.Exhausted? && report.stopStage == Dom && report.stopDetail == NoDetail
      else
        && report.stopStage == r.stage != Dom && report.stopDetail == r.last.detail
        && report.stopReason == if g.reported <= 0 && r.last.reason.Exhausted? then CountUnknown else r.last.reason
  {
    RunEndsExactly(g);
    StreamOnlyGrows(g);
    ScrolledExactlyWhen(g);
    RequestsEndTheRun(g);
    StageIsNamed(g);
  }

  /** The requests end in a stage of their own. */
  lemma StageIsNamed(g: Given)
    requires Ready(g)
    ensures Collect(g).requests.lastStage != Dom
    ensures var last := Collect(g).last.reason; !last.Done? && !last.CountUnknown?
  {
    RequestsEndTheRun(g);
    if !g.out.idFails(g.clock.ids) {
      CollectFinishes(g);
    }
  }

  /** The requests that were refused. */
  ghost function Refused(asked: seq<Request>): set<nat> {
    set i: nat | i < |asked| && asked[i].answer.Refused?
  }

  lemma {:induction false} RefusalsCount(asked: seq<Request>)
    ensures Refusals(asked) == |Refused(asked)|
  {
    if asked != [] {
      var n := |asked| - 1;
      RefusalsCount(asked[..n]);
      assert Refused(asked) == Refused(asked[..n]) + if asked[n].answer.Refused? then {n} else {};
    }
  }

  /** The report's counts are those of the records: pages answered, requests refused, and restarts that were made. */
  lemma ReportCounts(g: Given)
    requires Starts(g)
    ensures var r := Collect(g).requests;
      var report := ReportOf(g.cap, g.reported, Collect(g));
      && report.rpcPages == |PagesRead(AskedOn(r.browser))| + |PagesRead(AskedOn(r.http))|
      && report.blocks == |Refused(AskedOn(r.browser))| + |Refused(AskedOn(r.http))|
      && report.restarts == r.progress.restarts <= 1
      && (report.restarts == 1 ==> SomeRestart(AskedOn(r.browser), 0) || SomeRestart(AskedOn(r.http), 0))
  {
    PagesAreTheAnswers(g);
    RefusalsCount(AskedOn(Collect(g).requests.browser));
    RefusalsCount(AskedOn(Collect(g).requests.http));
    RunRestartsRightly(g);
    RestartsAreFew(g);
  }

  lemma RestartsAreFew(g: Given)
    requires Ready(g)
    ensures Collect(g).requests.progress.restarts <= 1
  {
    if !g.out.idFails(g.clock.ids) {
      var first := AfterBrowser(g);
      if g.browser.Some? {
        EarlierIsKept(g.out, g.cap, g.browser.value, AfterID(g), START, g.budget);
      }
      if g.http.Some? && !EndsTheRun(first.last.reason) {
        EarlierIsKept(g.out, g.cap, g.http.value, first.clock, first.progress, g.budget);
      }
    }
  }
}
