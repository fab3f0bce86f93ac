/**
 * The rotating identities of one run (gmaps/review_identity.go) and the routes requests leave by.
 *
 * A route's `answers` are what its requests will be answered, whatever that is: the k-th request gets
 * the k-th answer. `asked` is the record of the requests made.
 */
module ReviewIdentity {
  import opened Common
  import opened ReviewSets

  type Token = string

  datatype Page = Page(reviews: seq<Review>, next: Token)

  /** One response, classified, and when it is a page of reviews parsed. */
  datatype Answer =
    | Read(page: Page)
    | Unreadable(detail: string)
    | Refused(detail: string)
    | Invalid(detail: string)
    | Transient(detail: string)

  datatype Request = Request(identity: nat, token: Token, answer: Answer)

  /** A route: its identities, which are given up, which is in use, and what was asked as each. */
  datatype Line = Line(
    answers: nat -> Answer, rotating: bool, blocked: seq<bool>, cur: nat,
    asked: seq<Request>, rotations: nat, dropped: set<nat>)

  /** The identity in use has not been given up. */
  predicate Usable(l: Line) {
    l.cur < |l.blocked| && !l.blocked[l.cur] && (!l.rotating ==> |l.blocked| == 1)
  }

  /** The record with one more request, made as the identity in use. */
  function Asked(l: Line, token: Token): Line {
    l.(asked := l.asked + [Request(l.cur, token, l.answers(|l.asked|))])
  }

  /** The seat k places round a ring of n from `from`. */
  function Ring(from: nat, k: nat, n: nat): (to: nat)
    requires from < n && k <= n
    ensures to == (from + k) % n
  {
    Wraps(from + k, n);
    if from + k < n then from + k else from + k - n
  }

  lemma Wraps(sum: nat, n: nat)
    requires 0 < n && sum < 2 * n
    ensures sum % n == if sum < n then sum else sum - n
  {
    var turns := sum / n;
    assert sum == turns * n + sum % n;
    assert turns >= 2 ==> turns * n >= 2 * n;
    assert turns <= 0 ==> turns * n <= 0;
  }

  /** The first identity, from `step` places round the ring on, that has not been given up. */
  function NextFree(blocked: seq<bool>, from: nat, step: nat): (to: Option<nat>)
    requires from < |blocked| && 1 <= step <= |blocked| + 1
    ensures to.Some? ==> to.value < |blocked| && !blocked[to.value]
    decreases |blocked| + 1 - step
  {
    if step > |blocked| then None
    else if !blocked[Ring(from, step, |blocked|)] then Some(Ring(from, step, |blocked|))
    else NextFree(blocked, from, step + 1)
  }

  /** The identity in use given up, refused or failing, and the next one round the ring in its place. */
  function Rotated(l: Line, failing: bool): Line
    requires l.cur < |l.blocked|
  {
    var blocked := l.blocked[l.cur := true];
    var given := l.(blocked := blocked, dropped := if failing then l.dropped + {l.cur} else l.dropped);
    match NextFree(blocked, l.cur, 1)
    case Some(to) => given.(cur := to, rotations := l.rotations + 1)
    case None => given
  }

  // ---------------------------------------------------------------------------------------------
  // Rotation
  // ---------------------------------------------------------------------------------------------

  /** How many of these identities have not been given up. */
  function Unrefused(blocked: seq<bool>): (n: nat)
    ensures n <= |blocked|
  {
    if blocked == [] then 0
    else Unrefused(blocked[..|blocked| - 1]) + if blocked[|blocked| - 1] then 0 else 1
  }

  lemma {:induction false} GivingOneUp(blocked: seq<bool>, i: nat)
    requires i < |blocked| && !blocked[i]
    ensures Unrefused(blocked[i := true]) == Unrefused(blocked) - 1
  {
    var last := |blocked| - 1;
    if i == last {
      assert blocked[i := true][..last] == blocked[..last];
    } else {
      GivingOneUp(blocked[..last], i);
      assert blocked[i := true][..last] == blocked[..last][i := true];
    }
  }

  lemma {:induction false} OneLeft(blocked: seq<bool>, i: nat)
    requires i < |blocked| && !blocked[i]
    ensures Unrefused(blocked) >= 1
  {
    var last := |blocked| - 1;
    if i < last {
      OneLeft(blocked[..last], i);
    }
  }

  lemma {:induction false} NoneLeft(blocked: seq<bool>)
    requires forall i :: 0 <= i < |blocked| ==> blocked[i]
    ensures Unrefused(blocked) == 0
  {
    if blocked != [] {
      NoneLeft(blocked[..|blocked| - 1]);
    }
  }

  lemma {:induction false} AllUnrefused(blocked: seq<bool>)
    requires forall i :: 0 <= i < |blocked| ==> !blocked[i]
    ensures Unrefused(blocked) == |blocked|
  {
    if blocked != [] {
      AllUnrefused(blocked[..|blocked| - 1]);
    }
  }

  /** `to` is the first identity round the ring after `from` that has not been given up. */
  ghost predicate NextRound(blocked: seq<bool>, from: nat, to: nat)
    requires from < |blocked|
  {
    && to < |blocked|
    && !blocked[to]
    && exists k :: 1 <= k <= |blocked| && to == Ring(from, k, |blocked|) && AllGivenUp(blocked, from, k)
  }

  /** Every seat strictly between `from` and k places on has been given up. */
  ghost predicate AllGivenUp(blocked: seq<bool>, from: nat, k: nat)
    requires from < |blocked| && k <= |blocked| + 1
  {
    forall j :: 1 <= j < k ==> blocked[Ring(from, j, |blocked|)]
  }

  lemma {:induction false} NextFreeIsNext(blocked: seq<bool>, from: nat, step: nat)
    requires from < |blocked| && 1 <= step <= |blocked| + 1 && AllGivenUp(blocked, from, step)
    ensures NextFree(blocked, from, step).Some? ==> NextRound(blocked, from, NextFree(blocked, from, step).value)
    ensures NextFree(blocked, from, step).None? ==> forall i :: 0 <= i < |blocked| ==> blocked[i]
    decreases |blocked| + 1 - step
  {
    var n := |blocked|;
    if step > n {
      forall i | 0 <= i < n ensures blocked[i] {
        assert i == Ring(from, if i > from then i - from else i - from + n, n);
      }
    } else if blocked[Ring(from, step, n)] {
      NextFreeIsNext(blocked, from, step + 1);
    }
  }

  /**
   * Giving an identity up leaves one fewer. There is a next one exactly when any is left, and it is the
   * first round the ring; with none left the position stays.
   */
  lemma RotationUsesOne(l: Line, failing: bool)
    requires Usable(l)
    ensures var t := Rotated(l, failing);
      && t.blocked == l.blocked[l.cur := true]
      && Unrefused(t.blocked) == Unrefused(l.blocked) - 1
      && (Usable(t) <==> exists i :: 0 <= i < |t.blocked| && !t.blocked[i])
      && (Usable(t) ==> NextRound(t.blocked, l.cur, t.cur) && t.rotations == l.rotations + 1 && Unrefused(t.blocked) >= 1)
      && (!Usable(t) ==> t.cur == l.cur && t.rotations == l.rotations && Unrefused(t.blocked) == 0)
  {
    var t := Rotated(l, failing);
    GivingOneUp(l.blocked, l.cur);
    NextFreeIsNext(t.blocked, l.cur, 1);
    if Usable(t) {
      OneLeft(t.blocked, t.cur);
    } else {
      NoneLeft(t.blocked);
    }
  }

  // ---------------------------------------------------------------------------------------------
  // The record of requests
  // ---------------------------------------------------------------------------------------------

  /** No request was made as an identity already refused when it was made. */
  ghost predicate NeverAfterRefusal(asked: seq<Request>) {
    forall i, j :: 0 <= i < j < |asked| && asked[i].answer.Refused? ==> asked[i].identity != asked[j].identity
  }

  ghost predicate RefusedIn(asked: seq<Request>, identity: nat) {
    exists i :: 0 <= i < |asked| && asked[i].answer.Refused? && asked[i].identity == identity
  }

  function Refusals(asked: seq<Request>): nat {
    if asked == [] then 0
    else Refusals(asked[..|asked| - 1]) + if asked[|asked| - 1].answer.Refused? then 1 else 0
  }

  /** The pages the requests were answered with, and the tokens they were asked for. */
  datatype Turn = Turn(token: Token, page: Page)

  function PagesRead(asked: seq<Request>): seq<Turn> {
    if asked == [] then []
    else
      var last := asked[|asked| - 1];
      PagesRead(asked[..|asked| - 1]) + if last.answer.Read? then [Turn(last.token, last.answer.page)] else []
  }

  /** What was asked is what the route answers. */
  ghost predicate Honest(l: Line) {
    forall i :: 0 <= i < |l.asked| ==> l.asked[i].answer == l.answers(i)
  }

  /** The identities given up are those refused and those that kept failing, and none is both. */
  ghost predicate Accounted(blocked: seq<bool>, asked: seq<Request>, dropped: set<nat>) {
    && (forall i: nat :: RefusedIn(asked, i) || i in dropped <==> i < |blocked| && blocked[i])
    && (forall i :: i in dropped ==> !RefusedIn(asked, i))
  }

  /** Between requests: the identity in use has not been refused, and each rotation used one up. */
  ghost predicate InOrder(l: Line) {
    && Usable(l) && Honest(l) && NeverAfterRefusal(l.asked)
    && Accounted(l.blocked, l.asked, l.dropped)
    && l.rotations + Unrefused(l.blocked) == |l.blocked|
  }

  /** A route nothing has been asked on. */
  ghost predicate Unused(l: Line) {
    && Usable(l) && l.asked == [] && l.rotations == 0 && l.dropped == {}
    && forall i :: 0 <= i < |l.blocked| ==> !l.blocked[i]
  }

  lemma UnusedIsInOrder(l: Line)
    requires Unused(l)
    ensures InOrder(l)
  {
    AllUnrefused(l.blocked);
  }

  lemma OneMoreRequest(asked: seq<Request>, r: Request)
    ensures Refusals(asked + [r]) == Refusals(asked) + if r.answer.Refused? then 1 else 0
    ensures PagesRead(asked + [r])
      == if r.answer.Read? then PagesRead(asked) + [Turn(r.token, r.answer.page)] else PagesRead(asked)
    ensures forall i :: RefusedIn(asked + [r], i) <==> RefusedIn(asked, i) || (r.answer.Refused? && i == r.identity)
  {
    var all := asked + [r];
    assert all[..|asked|] == asked && all[|asked|] == r;
    forall i | RefusedIn(asked, i) ensures RefusedIn(all, i) {
      var k :| 0 <= k < |asked| && asked[k].answer.Refused? && asked[k].identity == i;
      assert all[k] == asked[k];
    }
    forall i | RefusedIn(all, i) && !(r.answer.Refused? && i == r.identity) ensures RefusedIn(asked, i) {
      var k :| 0 <= k < |all| && all[k].answer.Refused? && all[k].identity == i;
      assert asked[k].answer.Refused?;
    }
  }

  /** A request that is not refused leaves the route in order. */
  lemma AskingKeepsOrder(l: Line, token: Token)
    requires InOrder(l)
    ensures Honest(Asked(l, token)) && NeverAfterRefusal(Asked(l, token).asked)
    ensures !l.answers(|l.asked|).Refused? ==> InOrder(Asked(l, token))
  {
    OneMoreRequest(l.asked, Request(l.cur, token, l.answers(|l.asked|)));
  }

  lemma GivingUpIsAccounted(blocked: seq<bool>, asked: seq<Request>, dropped: set<nat>, r: Request)
    requires Accounted(blocked, asked, dropped) && r.identity < |blocked| && !blocked[r.identity]
    ensures Accounted(blocked[r.identity := true], asked + [r], if r.answer.Refused? then dropped else dropped + {r.identity})
  {
    OneMoreRequest(asked, r);
  }

  /** A refusal, or failing too often, and the rotation after it leave the route in order while any identity is left. */
  lemma RotatingKeepsOrder(l: Line, token: Token)
    requires InOrder(l)
    ensures var t := Rotated(Asked(l, token), !l.answers(|l.asked|).Refused?);
      && Accounted(t.blocked, t.asked, t.dropped)
      && (Usable(t) ==> InOrder(t))
  {
    var r := Request(l.cur, token, l.answers(|l.asked|));
    GivingUpIsAccounted(l.blocked, l.asked, l.dropped, r);
    AskingKeepsOrder(l, token);
    RotationUsesOne(Asked(l, token), !r.answer.Refused?);
  }

  // ---------------------------------------------------------------------------------------------
  // The route itself
  // ---------------------------------------------------------------------------------------------

  /**
   * The place page's own browser (one identity, no rotation) or the proxy pool. A pool starts at its
   * second identity when it has one, because the browser holds the first proxy.
   */
  class Route {
    const rotating: bool
    const answers: nat -> Answer
    var blocked: seq<bool>
    var cur: nat
    var asked: seq<Request>

    /** How often the route moved on, and which identities were given up without a refusal. */
    ghost var rotations: nat
    ghost var dropped: set<nat>

    ghost function View(): Line
      reads this
    {
      Line(answers, rotating, blocked, cur, asked, rotations, dropped)
    }

    constructor Browser(answers: nat -> Answer)
      ensures View() == Line(answers, false, [false], 0, [], 0, {}) && Unused(View())
    {
      rotating, this.answers, blocked, cur := false, answers, [false], 0;
      asked, rotations, dropped := [], 0, {};
    }

    constructor Pool(proxies: nat, answers: nat -> Answer)
      requires proxies > 0
      ensures rotating && this.answers == answers && |blocked| == proxies && Unused(View())
      ensures cur == if proxies == 1 then 0 else 1
    {
      rotating, this.answers, blocked, cur := true, answers, seq(proxies, _ => false), 1 % proxies;
      asked, rotations, dropped := [], 0, {};
    }

    /** One request as the identity in use. */
    method Ask(token: Token) returns (answer: Answer)
      modifies this`asked
      ensures View() == Asked(old(View()), token)
      ensures answer == answers(|old(asked)|)
    {
      answer := answers(|asked|);
      asked := asked + [Request(cur, token, answer)];
    }

    /** Give the identity in use up and move to the next one round the ring that has not been. */
    method Rotate(ghost failing: bool) returns (ok: bool)
      requires Usable(View())
      modifies this`blocked, this`cur, this`rotations, this`dropped
      ensures View() == Rotated(old(View()), failing)
      ensures ok <==> Usable(View())
    {
      dropped := if failing then dropped + {cur} else dropped;
      blocked := blocked[cur := true];
      var n := |blocked|;
      for step := 1 to n + 1
        invariant blocked == old(blocked)[old(cur) := true]
        invariant cur == old(cur) && rotations == old(rotations)
        invariant NextFree(blocked, cur, step) == NextFree(blocked, cur, 1)
      {
        var next := Ring(cur, step, n);
        if !blocked[next] {
          cur, rotations := next, rotations + 1;
          return true;
        }
      }
      return false;
    }
  }
}
