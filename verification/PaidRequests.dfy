/**
 * The ledger of paid review requests (app/backend/src/outscraper.ts).
 *
 * A transaction reads, changes and replaces the whole ledger under a lock file, so it is one step; a
 * caller that finds the lock taken throws instead. Times are the callers' own clock readings, taken
 * before the transaction they are used in, and need not advance.
 */
module PaidRequests {
  import opened Common

  const HOUR := 3_600_000
  const DAY := 24 * HOUR

  datatype RequestState = Reserved | Pending | Success | Failed

  datatype Reservation = Reservation(
    id: nat, placeId: string, createdAt: int, month: string, limit: nat, full: bool,
    state: RequestState, requestId: Option<string>)

  datatype Ledger = Ledger(records: seq<Reservation>, blockedUntil: int)

  /** `monthOf` is the calendar: the month a clock reading falls in. */
  datatype Config = Config(hasKey: bool, enabled: bool, perJob: nat, monthly: nat, pollAttempts: nat, monthOf: int -> string)

  datatype Call = Call(placeId: string, full: bool, reported: Option<int>, alreadyCollected: int)

  datatype Decision = Reuse(row: Reservation) | Fresh(row: Reservation) | Refuse

  predicate Configured(cfg: Config) {
    cfg.enabled && cfg.hasKey && cfg.perJob > 0 && cfg.monthly > 0
  }

  /** An exact place id: ten to three hundred letters, digits, underscores and dashes. */
  predicate LegalPlaceId(id: string) {
    10 <= |id| <= 300
    && forall i :: 0 <= i < |id| ==> 'A' <= id[i] <= 'Z' || 'a' <= id[i] <= 'z' || '0' <= id[i] <= '9' || id[i] == '_' || id[i] == '-'
  }

  /** The latest reservation of the place made less than a day before `now`. */
  function Prior(records: seq<Reservation>, placeId: string, now: int): Option<Reservation> {
    if records == [] then None
    else
      var r := records[|records| - 1];
      if r.placeId == placeId && now - r.createdAt < DAY then Some(r)
      else Prior(records[..|records| - 1], placeId, now)
  }

  /** The review limits reserved in a month. */
  function MonthTotal(records: seq<Reservation>, month: string): nat {
    if records == [] then 0
    else
      var r := records[|records| - 1];
      MonthTotal(records[..|records| - 1], month) + if r.month == month then r.limit else 0
  }

  /** How many reviews a call is after: a whole history, and a few more, or a small sample. */
  function Desired(cfg: Config, call: Call): int {
    if !call.full then 10
    else if call.reported.Some? && call.reported.value > 0 then call.reported.value + 10
    else cfg.perJob
  }

  /** How many reviews a call would reserve; below 1 nothing is left to reserve. */
  function Allowance(cfg: Config, used: nat, call: Call): int {
    Min(Min(cfg.perJob, Desired(cfg, call)), cfg.monthly - used)
  }

  /** What the reserving transaction decides. */
  function Decide(cfg: Config, ledger: Ledger, call: Call, now: int): Decision {
    match Prior(ledger.records, call.placeId, now)
    case Some(prior) =>
      if prior.state.Success? && (!call.full || prior.full) then Reuse(prior)
      else if prior.state.Pending? && prior.requestId.Some? && now - prior.createdAt < 3 * HOUR then Reuse(prior)
      else Refuse
    case None =>
      if ledger.blockedUntil > now then Refuse
      else
        var month := cfg.monthOf(now);
        var limit := Allowance(cfg, MonthTotal(ledger.records, month), call);
        if limit < 1 then Refuse
        else if call.full && limit <= call.alreadyCollected then Refuse
        else Fresh(Reservation(|ledger.records|, call.placeId, now, month, limit, call.full, Reserved, None))
  }

  // ---------------------------------------------------------------------------------------------
  // Facts about one decision
  // ---------------------------------------------------------------------------------------------

  /** No request for the place is less than a day old. */
  ghost predicate Unrequested(records: seq<Reservation>, placeId: string, now: int) {
    forall r :: r in records && r.placeId == placeId ==> now - r.createdAt >= DAY
  }

  /** The row at i is the last of the place's that is less than a day old. */
  ghost predicate LatestOfDay(records: seq<Reservation>, placeId: string, now: int, i: nat) {
    && i < |records| && records[i].placeId == placeId && now - records[i].createdAt < DAY
    && forall j :: i < j < |records| && records[j].placeId == placeId ==> now - records[j].createdAt >= DAY
  }

  lemma {:induction false} PriorFinds(records: seq<Reservation>, placeId: string, now: int)
    ensures Prior(records, placeId, now).None? <==> Unrequested(records, placeId, now)
    ensures Prior(records, placeId, now).Some? ==>
      exists i: nat :: LatestOfDay(records, placeId, now, i) && records[i] == Prior(records, placeId, now).value
  {
    if records != [] {
      var front, last := records[..|records| - 1], records[|records| - 1];
      assert records == front + [last];
      PriorFinds(front, placeId, now);
      if last.placeId == placeId && now - last.createdAt < DAY {
        assert LatestOfDay(records, placeId, now, |front|);
      } else if Prior(front, placeId, now).Some? {
        var i: nat :| LatestOfDay(front, placeId, now, i) && front[i] == Prior(front, placeId, now).value;
        assert LatestOfDay(records, placeId, now, i);
      }
    }
  }

  /**
   * A row is reused exactly when the place's latest row of the day is one a sample or this call could have
   * been made for and has succeeded, or is pending with a request id and under three hours old.
   */
  lemma ReuseServesTheCall(cfg: Config, ledger: Ledger, call: Call, now: int, i: nat)
    requires LatestOfDay(ledger.records, call.placeId, now, i)
    ensures var row := ledger.records[i];
      && (Decide(cfg, ledger, call, now).Reuse? <==>
            (row.state.Success? && (call.full ==> row.full))
            || (row.state.Pending? && row.requestId.Some? && now - row.createdAt < 3 * HOUR))
      && (Decide(cfg, ledger, call, now).Reuse? ==> Decide(cfg, ledger, call, now).row == row)
      && !Decide(cfg, ledger, call, now).Fresh?
  {
    LatestIsPrior(ledger.records, call.placeId, now, i);
  }

  lemma {:induction false} LatestIsPrior(records: seq<Reservation>, placeId: string, now: int, i: nat)
    requires LatestOfDay(records, placeId, now, i)
    ensures Prior(records, placeId, now) == Some(records[i])
  {
    if i < |records| - 1 {
      LatestIsPrior(records[..|records| - 1], placeId, now, i);
    }
  }

  /**
   * A call for the whole history is served by a row that was not made for it exactly when the place's
   * latest row of the day is such a row, still pending, with a request id, and under three hours old.
   */
  lemma SampleIsResumedExactlyWhen(cfg: Config, ledger: Ledger, call: Call, now: int)
    requires call.full
    ensures Decide(cfg, ledger, call, now).Reuse? && !Decide(cfg, ledger, call, now).row.full <==>
      exists i: nat :: LatestOfDay(ledger.records, call.placeId, now, i)
        && !ledger.records[i].full && ledger.records[i].state.Pending? && ledger.records[i].requestId.Some?
        && now - ledger.records[i].createdAt < 3 * HOUR
  {
    PriorFinds(ledger.records, call.placeId, now);
    forall i: nat | LatestOfDay(ledger.records, call.placeId, now, i)
      ensures Prior(ledger.records, call.placeId, now) == Some(ledger.records[i])
    {
      LatestIsPrior(ledger.records, call.placeId, now, i);
    }
  }

  // ---------------------------------------------------------------------------------------------
  // The ledger object
  // ---------------------------------------------------------------------------------------------

  /** What `update` may assign. */
  datatype Patch = Patch(state: RequestState, requestId: Option<string>)

  function Patched(r: Reservation, p: Patch): Reservation {
    r.(state := p.state, requestId := if p.requestId.Some? then p.requestId else r.requestId)
  }

  function PatchAll(records: seq<Reservation>, id: nat, p: Patch): seq<Reservation> {
    seq(|records|, i requires 0 <= i < |records| => if records[i].id == id then Patched(records[i], p) else records[i])
  }

  ghost predicate IdsArePositions(records: seq<Reservation>) {
    forall i :: 0 <= i < |records| ==> records[i].id == i
  }

  class OutscraperFallback {
    const cfg: Config
    var records: seq<Reservation>
    var blockedUntil: int

    constructor (cfg: Config)
      ensures this.cfg == cfg && records == [] && blockedUntil == 0
    {
      this.cfg, records, blockedUntil := cfg, [], 0;
    }

    function View(): Ledger
      reads this
    {
      Ledger(records, blockedUntil)
    }

    /** The reserving transaction. */
    method Reserve(call: Call, now: int) returns (d: Decision)
      modifies this`records
      ensures d == Decide(cfg, old(View()), call, now)
      ensures records == old(records) + if d.Fresh? then [d.row] else []
    {
      var prior := Prior(records, call.placeId, now);
      if prior.Some? {
        var p := prior.value;
        if p.state == Success && (!call.full || p.full) {
          return Reuse(p);
        }
        if p.state == Pending && p.requestId.Some? && now - p.createdAt < 3 * HOUR {
          return Reuse(p);
        }
        return Refuse;
      }
      if blockedUntil > now {
        return Refuse;
      }
      var month := cfg.monthOf(now);
      var used := MonthTotal(records, month);
      var limit := Allowance(cfg, used, call);
      if limit < 1 || (call.full && limit <= call.alreadyCollected) {
        return Refuse;
      }
      var reserved := Reservation(|records|, call.placeId, now, month, limit, call.full, Reserved, None);
      records := records + [reserved];
      return Fresh(reserved);
    }

    /** The updating transaction; a missing row throws. */
    method Update(id: nat, patch: Patch, block: Option<int>) returns (found: bool)
      requires IdsArePositions(records)
      modifies this`records, this`blockedUntil
      ensures found <==> id < |records|
      ensures found ==> records == PatchAll(old(records), id, patch)
      ensures found ==> blockedUntil == if block.Some? then block.value else old(blockedUntil)
      ensures !found ==> unchanged(this)
    {
      if id >= |records| {
        return false;
      }
      records := records[id := Patched(records[id], patch)];
      if block.Some? {
        blockedUntil := block.value;
      }
      return true;
    }

    /** Ready is what a sample of a place not asked for in a day would be told: that it may be requested. */
    method Status(now: int) returns (reserved: nat, ready: bool)
      ensures reserved == MonthTotal(records, cfg.monthOf(now))
      ensures ready <==> Configured(cfg) && blockedUntil <= now && reserved < cfg.monthly
      ensures Configured(cfg) ==>
        forall call: Call :: !call.full && Unrequested(records, call.placeId, now) ==> (ready <==> Decide(cfg, View(), call, now).Fresh?)
    {
      forall call: Call | !call.full && Unrequested(records, call.placeId, now)
        ensures Prior(records, call.placeId, now).None?
      {
        PriorFinds(records, call.placeId, now);
      }
      reserved := MonthTotal(records, cfg.monthOf(now));
      ready := cfg.enabled && cfg.hasKey && cfg.perJob != 0 && cfg.monthly != 0 && !(blockedUntil > now) && reserved < cfg.monthly;
    }
  }

  // ---------------------------------------------------------------------------------------------
  // Interleaved callers
  // ---------------------------------------------------------------------------------------------

  /**
   * Where one `collect` call is. `mine`: it made the reservation itself; `polls`: how often it has
   * asked for the result.
   */
  datatype Caller =
    | Idle(call: Call)
    | HasClock(call: Call, now: int)
    | Submitting(id: nat)
    | Following(id: nat, mine: bool, polls: nat)
    | Over

  /** A paid submission: which caller made it, for which reservation. */
  datatype Submission = Submission(caller: nat, id: nat)

  datatype State = State(ledger: Ledger, callers: seq<Caller>, submissions: seq<Submission>)

  datatype Event =
    | Begins(call: Call)
    | ReadsClock(caller: nat, now: int)
    | Reserves(caller: nat)
    | Submits(caller: nat)
    | Records(caller: nat, patch: Patch, block: Option<int>)
    | Polls(caller: nat)
    | Ends(caller: nat)

  ghost predicate Step(cfg: Config, s: State, e: Event, t: State) {
    match e
    case Begins(call) =>
      && LegalPlaceId(call.placeId) && Configured(cfg)
      && t == s.(callers := s.callers + [Idle(call)])
    case ReadsClock(c, now) =>
      && c < |s.callers| && s.callers[c].Idle?
      && t == s.(callers := s.callers[c := HasClock(s.callers[c].call, now)])
    case Reserves(c) =>
      && c < |s.callers| && s.callers[c].HasClock?
      && t == (match Decide(cfg, s.ledger, s.callers[c].call, s.callers[c].now)
               case Reuse(row) => s.(callers := s.callers[c := Following(row.id, false, 0)])
               case Fresh(row) => s.(callers := s.callers[c := Submitting(row.id)],
                                     ledger := s.ledger.(records := s.ledger.records + [row]))
               case Refuse => s.(callers := s.callers[c := Over]))
    case Submits(c) =>
      && c < |s.callers| && s.callers[c].Submitting?
      && t == s.(callers := s.callers[c := Following(s.callers[c].id, true, 0)],
                 submissions := s.submissions + [Submission(c, s.callers[c].id)])
    case Records(c, patch, block) =>
      && c < |s.callers| && s.callers[c].Following?
      && t == s.(ledger := Ledger(PatchAll(s.ledger.records, s.callers[c].id, patch),
                                  if block.Some? then block.value else s.ledger.blockedUntil))
    case Polls(c) =>
      && c < |s.callers| && s.callers[c].Following? && s.callers[c].polls < cfg.pollAttempts
      && t == s.(callers := s.callers[c := s.callers[c].(polls := s.callers[c].polls + 1)])
    case Ends(c) =>
      && c < |s.callers|
      && t == s.(callers := s.callers[c := Over])
  }

  ghost predicate Init(s: State) {
    s == State(Ledger([], 0), [], [])
  }

  // ---------------------------------------------------------------------------------------------
  // The invariant
  // ---------------------------------------------------------------------------------------------

  ghost predicate WithinMonths(cfg: Config, records: seq<Reservation>) {
    forall m :: MonthTotal(records, m) <= cfg.monthly
  }

  ghost predicate DayApart(records: seq<Reservation>) {
    forall i, j :: 0 <= i < j < |records| && records[i].placeId == records[j].placeId ==>
      records[j].createdAt - records[i].createdAt >= DAY
  }

  ghost predicate LimitsInRange(cfg: Config, records: seq<Reservation>) {
    forall r :: r in records ==> 1 <= r.limit <= cfg.perJob
  }

  ghost predicate LedgerInv(cfg: Config, records: seq<Reservation>) {
    IdsArePositions(records) && WithinMonths(cfg, records) && DayApart(records) && LimitsInRange(cfg, records)
  }

  ghost predicate SubmissionsDiffer(s: State) {
    && (forall a, b :: 0 <= a < b < |s.submissions| ==> s.submissions[a].id != s.submissions[b].id)
    && (forall a :: 0 <= a < |s.submissions| ==> s.submissions[a].id < |s.ledger.records| && s.submissions[a].caller < |s.callers|)
  }

  /** A reservation about to be submitted has not been, and is no other caller's. */
  ghost predicate SubmittingIsNew(s: State) {
    && (forall c :: 0 <= c < |s.callers| && s.callers[c].Submitting? ==> s.callers[c].id < |s.ledger.records|)
    && (forall c, a :: 0 <= c < |s.callers| && s.callers[c].Submitting? && 0 <= a < |s.submissions| ==>
      s.submissions[a].id != s.callers[c].id)
    && (forall c, d :: 0 <= c < d < |s.callers| && s.callers[c].Submitting? && s.callers[d].Submitting? ==>
      s.callers[c].id != s.callers[d].id)
  }

  /** A caller that has submitted follows its own reservation, or is over. */
  ghost predicate SubmittersAreFresh(s: State) {
    && (forall a :: 0 <= a < |s.submissions| && s.submissions[a].caller < |s.callers| ==>
      s.callers[s.submissions[a].caller].Over?
      || (s.callers[s.submissions[a].caller].Following? && s.callers[s.submissions[a].caller].mine
          && s.callers[s.submissions[a].caller].id == s.submissions[a].id))
    && (forall a, b :: 0 <= a < b < |s.submissions| ==> s.submissions[a].caller != s.submissions[b].caller)
  }

  ghost predicate Inv(cfg: Config, s: State) {
    LedgerInv(cfg, s.ledger.records) && SubmissionsDiffer(s) && SubmittingIsNew(s) && SubmittersAreFresh(s)
  }

  lemma TotalSnoc(records: seq<Reservation>, row: Reservation, m: string)
    ensures MonthTotal(records + [row], m) == MonthTotal(records, m) + if row.month == m then row.limit else 0
  {
    assert (records + [row])[..|records|] == records;
  }

  /** A fresh reservation takes no more than its month has left, and none less than a day after another. */
  lemma FreshFits(cfg: Config, ledger: Ledger, call: Call, now: int)
    requires Decide(cfg, ledger, call, now).Fresh?
    ensures var row := Decide(cfg, ledger, call, now).row;
      && row.id == |ledger.records| && row.placeId == call.placeId && now >= ledger.blockedUntil
      && row.createdAt == now && row.month == cfg.monthOf(now) && row.full == call.full
      && row.state.Reserved? && row.requestId.None?
      && 1 <= row.limit <= cfg.perJob
      && (if call.full then row.limit > call.alreadyCollected else row.limit <= 10)
      && MonthTotal(ledger.records, row.month) + row.limit <= cfg.monthly
      && Unrequested(ledger.records, row.placeId, row.createdAt)
  {
    PriorFinds(ledger.records, call.placeId, now);
  }

  /**
   * A call is given a reservation exactly when no request for the place is less than a day old, nothing
   * is cooling down, there is allowance left, and for a whole history more of it than is collected
   * already. A sample is given ten reviews, a history of known length that and ten more, any other the limit
   * of a job; each only as far as the limit of a job and what is left of the month go.
   */
  lemma FreshExactlyWhen(cfg: Config, ledger: Ledger, call: Call, now: int)
    ensures var left := cfg.monthly - MonthTotal(ledger.records, cfg.monthOf(now));
      var counted := call.reported.Some? && call.reported.value > 0;
      var most := Min(cfg.perJob, left);
      && (!call.full ==> (Decide(cfg, ledger, call, now).Fresh? <==> Free(cfg, ledger, call, now)))
      && (call.full && counted ==> (Decide(cfg, ledger, call, now).Fresh? <==>
            Free(cfg, ledger, call, now) && Min(most, call.reported.value + 10) > call.alreadyCollected))
      && (call.full && !counted ==> (Decide(cfg, ledger, call, now).Fresh? <==>
            Free(cfg, ledger, call, now) && most > call.alreadyCollected))
      && (Decide(cfg, ledger, call, now).Fresh? ==>
            var limit := Decide(cfg, ledger, call, now).row.limit;
            && (!call.full ==> limit == Min(most, 10))
            && (call.full && counted ==> limit == Min(most, call.reported.value + 10))
            && (call.full && !counted ==> limit == most))
  {
    PriorFinds(ledger.records, call.placeId, now);
  }

  /** Nothing stands in the way of a request for the place: none under a day old, no cooling down, some allowance. */
  ghost predicate Free(cfg: Config, ledger: Ledger, call: Call, now: int) {
    && Unrequested(ledger.records, call.placeId, now) && ledger.blockedUntil <= now
    && cfg.perJob > 0 && cfg.monthly > MonthTotal(ledger.records, cfg.monthOf(now))
  }

  lemma FreshKeepsLedger(cfg: Config, records: seq<Reservation>, row: Reservation)
    requires LedgerInv(cfg, records)
    requires row.id == |records| && 1 <= row.limit <= cfg.perJob
    requires MonthTotal(records, row.month) + row.limit <= cfg.monthly
    requires Unrequested(records, row.placeId, row.createdAt)
    ensures LedgerInv(cfg, records + [row])
  {
    forall m ensures MonthTotal(records + [row], m) <= cfg.monthly {
      TotalSnoc(records, row, m);
    }
  }

  lemma {:induction false} PatchKeepsTotals(records: seq<Reservation>, id: nat, p: Patch, m: string)
    ensures MonthTotal(PatchAll(records, id, p), m) == MonthTotal(records, m)
  {
    if records != [] {
      PatchKeepsTotals(records[..|records| - 1], id, p, m);
      assert PatchAll(records, id, p)[..|records| - 1] == PatchAll(records[..|records| - 1], id, p);
    }
  }

  lemma PatchKeepsLedger(cfg: Config, records: seq<Reservation>, id: nat, p: Patch)
    requires LedgerInv(cfg, records)
    ensures LedgerInv(cfg, PatchAll(records, id, p))
  {
    forall m ensures MonthTotal(PatchAll(records, id, p), m) <= cfg.monthly {
      PatchKeepsTotals(records, id, p, m);
    }
    forall r | r in PatchAll(records, id, p) ensures 1 <= r.limit <= cfg.perJob {
      var i :| 0 <= i < |records| && r == PatchAll(records, id, p)[i];
      assert records[i] in records;
    }
  }

  lemma LedgerKept(cfg: Config, s: State, e: Event, t: State)
    requires LedgerInv(cfg, s.ledger.records) && Step(cfg, s, e, t)
    ensures LedgerInv(cfg, t.ledger.records)
  {
    match e
    case Reserves(c) =>
      if Decide(cfg, s.ledger, s.callers[c].call, s.callers[c].now).Fresh? {
        FreshFits(cfg, s.ledger, s.callers[c].call, s.callers[c].now);
        FreshKeepsLedger(cfg, s.ledger.records, Decide(cfg, s.ledger, s.callers[c].call, s.callers[c].now).row);
      }
    case Records(c, patch, _) => PatchKeepsLedger(cfg, s.ledger.records, s.callers[c].id, patch);
    case _ =>
  }

  lemma SubmissionsKept(cfg: Config, s: State, e: Event, t: State)
    requires SubmissionsDiffer(s) && SubmittingIsNew(s) && Step(cfg, s, e, t)
    ensures SubmissionsDiffer(t)
  {
  }

  lemma SubmittingKept(cfg: Config, s: State, e: Event, t: State)
    requires SubmissionsDiffer(s) && SubmittingIsNew(s) && Step(cfg, s, e, t)
    ensures SubmittingIsNew(t)
  {
    if e.Reserves? {
      ReservingKeepsSubmitting(cfg, s, e.caller, t);
    } else {
      OthersKeepSubmitting(cfg, s, e, t);
    }
  }

  lemma ReservingKeepsSubmitting(cfg: Config, s: State, c: nat, t: State)
    requires SubmissionsDiffer(s) && SubmittingIsNew(s) && Step(cfg, s, Reserves(c), t)
    ensures SubmittingIsNew(t)
  {
  }

  lemma OthersKeepSubmitting(cfg: Config, s: State, e: Event, t: State)
    requires SubmissionsDiffer(s) && SubmittingIsNew(s) && Step(cfg, s, e, t) && !e.Reserves?
    ensures SubmittingIsNew(t)
  {
  }

  lemma SubmittersKept(cfg: Config, s: State, e: Event, t: State)
    requires SubmittersAreFresh(s) && SubmissionsDiffer(s) && Step(cfg, s, e, t)
    ensures SubmittersAreFresh(t)
  {
  }

  // ---------------------------------------------------------------------------------------------
  // Whole runs
  // ---------------------------------------------------------------------------------------------

  ghost predicate Run(cfg: Config, states: seq<State>, events: seq<Event>) {
    && |states| == |events| + 1
    && Init(states[0])
    && forall i :: 0 <= i < |events| ==> Step(cfg, states[i], events[i], states[i + 1])
  }

  lemma {:induction false} RunInv(cfg: Config, states: seq<State>, events: seq<Event>, i: nat)
    requires Run(cfg, states, events) && i < |states|
    ensures Inv(cfg, states[i])
  {
    if i > 0 {
      RunInv(cfg, states, events, i - 1);
      LedgerKept(cfg, states[i - 1], events[i - 1], states[i]);
      SubmissionsKept(cfg, states[i - 1], events[i - 1], states[i]);
      SubmittingKept(cfg, states[i - 1], events[i - 1], states[i]);
      SubmittersKept(cfg, states[i - 1], events[i - 1], states[i]);
    }
  }

  /**
   * Whatever the callers' clocks and however they interleave: no month's reserved limits exceed the
   * monthly limit, and two reservations for one place are a day apart.
   */
  lemma ReservationsStayWithinLimits(cfg: Config, states: seq<State>, events: seq<Event>, i: nat)
    requires Run(cfg, states, events) && i < |states|
    ensures forall m :: MonthTotal(states[i].ledger.records, m) <= cfg.monthly
    ensures DayApart(states[i].ledger.records)
    ensures var records := states[i].ledger.records;
      forall a, b :: 0 <= a < b < |records| && records[a].placeId == records[b].placeId ==>
        records[b].createdAt - records[a].createdAt >= 86_400_000
  {
    RunInv(cfg, states, events, i);
  }

  predicate Resumed(c: Caller) {
    c.Following? && !c.mine
  }

  /** A reservation is submitted once at most, by the caller that made it; a resumed call never submits. */
  lemma OneSubmissionEach(cfg: Config, states: seq<State>, events: seq<Event>, i: nat)
    requires Run(cfg, states, events) && i < |states|
    ensures forall a, b :: 0 <= a < b < |states[i].submissions| ==>
      states[i].submissions[a].id != states[i].submissions[b].id && states[i].submissions[a].caller != states[i].submissions[b].caller
    ensures forall a, c :: 0 <= a < |states[i].submissions| && 0 <= c < |states[i].callers| && Resumed(states[i].callers[c]) ==>
      states[i].submissions[a].caller != c
  {
    RunInv(cfg, states, events, i);
  }

  // ---------------------------------------------------------------------------------------------
  // A run in which a whole history is served by a sample
  // ---------------------------------------------------------------------------------------------

  /** A caller that takes a first sample of a place and has its request recorded as pending. */
  function SampleEvents(place: string, now: int): seq<Event> {
    [Begins(Call(place, false, None, 0)), ReadsClock(0, now), Reserves(0), Submits(0),
     Records(0, Patch(Pending, Some("request")), None)]
  }

  function SampleStates(cfg: Config, place: string, now: int): seq<State>
    requires Configured(cfg)
  {
    var row := Reservation(0, place, now, cfg.monthOf(now), Min(Min(cfg.perJob, 10), cfg.monthly), false, Reserved, None);
    var call := Call(place, false, None, 0);
    [State(Ledger([], 0), [], []),
     State(Ledger([], 0), [Idle(call)], []),
     State(Ledger([], 0), [HasClock(call, now)], []),
     State(Ledger([row], 0), [Submitting(0)], []),
     State(Ledger([row], 0), [Following(0, true, 0)], [Submission(0, 0)]),
     State(Ledger([row.(state := Pending, requestId := Some("request"))], 0), [Following(0, true, 0)], [Submission(0, 0)])]
  }

  lemma SampleRuns(cfg: Config, place: string, now: int)
    requires Configured(cfg) && LegalPlaceId(place) && now >= 0
    ensures Run(cfg, SampleStates(cfg, place, now), SampleEvents(place, now))
  {
    var states := SampleStates(cfg, place, now);
    assert Decide(cfg, states[2].ledger, states[2].callers[0].call, now).Fresh?;
    assert PatchAll(states[4].ledger.records, 0, Patch(Pending, Some("request"))) == states[5].ledger.records;
  }

  /**
   * Then, within three hours, another asks for the whole history of the same place: it is set to follow
   * the sample's request, and no other is ever submitted for it.
   */
  lemma FullCallCanResumeASample(cfg: Config, place: string, now: int, later: int)
    returns (states: seq<State>, events: seq<Event>)
    requires Configured(cfg) && LegalPlaceId(place) && 0 <= now && later - now < 10_800_000
    ensures Run(cfg, states, events) && |events| == 8
    ensures |states[7].callers| == |states[8].callers| == 2
    ensures states[7].callers[1] == HasClock(Call(place, true, None, 0), later) && events[7] == Reserves(1)
    ensures states[8].callers[1] == Following(0, false, 0) && |states[8].submissions| == 1
    ensures |states[8].ledger.records| == 1 && !states[8].ledger.records[0].full && states[8].ledger.records[0].limit <= 10
  {
    var call := Call(place, true, None, 0);
    var first, s := SampleStates(cfg, place, now), SampleStates(cfg, place, now)[5];
    SampleRuns(cfg, place, now);
    assert Decide(cfg, s.ledger, call, later) == Reuse(s.ledger.records[0]);
    states := first + [s.(callers := s.callers + [Idle(call)]), s.(callers := s.callers + [HasClock(call, later)]),
                       s.(callers := s.callers + [Following(0, false, 0)])];
    events := SampleEvents(place, now) + [Begins(call), ReadsClock(1, later), Reserves(1)];
    assert |events| == 8 && |states| == 9;
    forall i | 0 <= i < |events| ensures Step(cfg, states[i], events[i], states[i + 1]) {
      if i < 5 {
        assert states[i] == first[i] && states[i + 1] == first[i + 1] && events[i] == SampleEvents(place, now)[i];
      }
    }
  }

  // ---------------------------------------------------------------------------------------------
  // What is paid for
  // ---------------------------------------------------------------------------------------------

  /** The reviews paid for in a month: the limits of the reservations submitted. */
  ghost function Spent(records: seq<Reservation>, submitted: set<nat>, month: string): nat {
    if records == [] then 0
    else
      var r := records[|records| - 1];
      Spent(records[..|records| - 1], submitted, month) + if r.month == month && r.id in submitted then r.limit else 0
  }

  lemma {:induction false} SpentWithinReserved(records: seq<Reservation>, submitted: set<nat>, month: string)
    ensures Spent(records, submitted, month) <= MonthTotal(records, month)
  {
    if records != [] {
      SpentWithinReserved(records[..|records| - 1], submitted, month);
    }
  }

  /** So no month is ever charged for more reviews than its limit. */
  lemma SpendStaysWithinLimit(cfg: Config, states: seq<State>, events: seq<Event>, i: nat, month: string)
    requires Run(cfg, states, events) && i < |states|
    ensures Spent(states[i].ledger.records, set a | 0 <= a < |states[i].submissions| :: states[i].submissions[a].id, month) <= cfg.monthly
  {
    RunInv(cfg, states, events, i);
    SpentWithinReserved(states[i].ledger.records, set a | 0 <= a < |states[i].submissions| :: states[i].submissions[a].id, month);
  }
}
