/**
 * The guard that holds back page loads after Google refuses one (gmaps/blockguard.go). Times are
 * milliseconds on a clock that does not run back; each method is one locked region.
 */
module BlockGuards {
  import opened Common

  const SECOND := 1000
  const BACKOFF_BASE := 20_000
  const BACKOFF_MAX := 300_000
  const WINDOW := 600_000

  /** What the guard has been told. */
  datatype Event = Refusal(at: int) | Load

  /** The refusals in a row that the history ends with. */
  function RunLength(history: seq<Event>): nat {
    if history == [] || history[|history| - 1].Load? then 0 else 1 + RunLength(history[..|history| - 1])
  }

  /** Every refusal ever made, in order. */
  function RefusalTimes(history: seq<Event>): seq<int> {
    if history == [] then []
    else
      var last := history[|history| - 1];
      RefusalTimes(history[..|history| - 1]) + if last.Refusal? then [last.at] else []
  }

  /** Whole seconds of a duration. */
  function Truncate(d: nat): (s: nat)
    ensures s % SECOND == 0 && s <= d < s + SECOND
  {
    d - d % SECOND
  }

  /** 20 seconds after the first refusal of a run, doubling with each, up to 5 minutes. */
  function Hold(run: nat): int
    requires run > 0
  {
    Min(BACKOFF_BASE * Pow2(run - 1), BACKOFF_MAX)
  }

  /** When each refusal lets pages load again: its own time and the hold for the length its run had reached. */
  function HeldTo(history: seq<Event>): seq<int> {
    if history == [] then []
    else
      var last := history[|history| - 1];
      HeldTo(history[..|history| - 1]) + if last.Refusal? then [last.at + Hold(RunLength(history))] else []
  }

  /** The largest, or nothing when there is none. */
  ghost predicate IsLatest(until: Option<int>, times: seq<int>) {
    && (until.None? <==> times == [])
    && (until.Some? ==> until.value in times && forall i :: 0 <= i < |times| ==> times[i] <= until.value)
  }

  /** How many refusals lie within the last ten minutes. */
  function Recent(times: seq<int>, now: int): nat {
    if times == [] then 0
    else Recent(times[..|times| - 1], now) + if now - times[|times| - 1] <= WINDOW then 1 else 0
  }

  lemma {:induction false} RecentAfterStale(times: seq<int>, cut: nat, now: int)
    requires cut <= |times|
    requires forall i :: 0 <= i < cut ==> now - times[i] > 600_000
    requires forall i :: cut <= i < |times| ==> now - times[i] <= 600_000
    ensures Recent(times, now) == |times| - cut
  {
    if times != [] {
      var n := |times| - 1;
      RecentAfterStale(times[..n], if cut <= n then cut else n, now);
    }
  }

  /** 20, 40, 80 and 160 seconds, and 5 minutes from the fifth refusal in a row on. */
  lemma HoldsInSeconds(run: nat)
    requires run > 0
    ensures Hold(run) == (if run == 1 then 20_000 else if run == 2 then 40_000 else if run == 3 then 80_000
                          else if run == 4 then 160_000 else 300_000)
  {
    assert Pow2(1) == 2 && Pow2(2) == 4 && Pow2(3) == 8 && Pow2(4) == 16;
    if run >= 5 {
      Doubling(4, run - 1);
    }
  }

  /** A refusal makes the run one longer, adds its time and holds pages that long; a load ends the run and no more. */
  lemma OneMoreEvent(history: seq<Event>, now: int)
    ensures var refused := history + [Refusal(now)];
      && RunLength(refused) == RunLength(history) + 1
      && RefusalTimes(refused) == RefusalTimes(history) + [now]
      && HeldTo(refused) == HeldTo(history) + [now + Hold(RunLength(history) + 1)]
    ensures var loaded := history + [Load];
      RunLength(loaded) == 0 && RefusalTimes(loaded) == RefusalTimes(history) && HeldTo(loaded) == HeldTo(history)
  {
    var refused, loaded := history + [Refusal(now)], history + [Load];
    assert refused[..|history|] == history && loaded[..|history|] == history;
  }

  /** The clamped shift doubles exactly: by the fifth doubling the hold is at its maximum. */
  lemma ClampedShift(run: nat)
    requires run > 0
    ensures Min(BACKOFF_BASE * Pow2(Min(run - 1, 5)), BACKOFF_MAX) == Hold(run)
  {
    assert Pow2(5) == 32 by {
      assert Pow2(1) == 2 && Pow2(2) == 4 && Pow2(3) == 8 && Pow2(4) == 16;
    }
    if run - 1 > 5 {
      Doubling(5, run - 1);
    }
  }

  lemma {:induction false} Doubling(m: nat, n: nat)
    requires m <= n
    ensures Pow2(m) <= Pow2(n)
  {
    if m < n {
      Doubling(m, n - 1);
    }
  }

  /** The kept times are the latest of all, nothing younger than ten minutes was dropped, and none is ahead of the clock. */
  ghost predicate Pruned(times: seq<int>, events: seq<int>, clock: int) {
    && |events| <= |times|
    && times[|times| - |events|..] == events
    && (forall i :: 0 <= i < |times| - |events| ==> clock - times[i] > WINDOW)
    && (forall i, j :: 0 <= i < j < |times| ==> times[i] <= times[j])
    && (forall i :: 0 <= i < |times| ==> times[i] <= clock)
  }

  lemma OneMoreRefusal(times: seq<int>, events: seq<int>, clock: int, now: int)
    requires Pruned(times, events, clock) && clock <= now
    ensures Pruned(times + [now], events + [now], now)
  {
  }

  lemma StaleGo(times: seq<int>, events: seq<int>, clock: int, now: int, cut: nat)
    requires Pruned(times, events, clock) && clock <= now && cut <= |events|
    requires forall i :: 0 <= i < cut ==> now - events[i] > WINDOW
    requires cut < |events| ==> now - events[cut] <= WINDOW
    ensures Pruned(times, events[cut..], now)
    ensures Recent(times, now) == |events| - cut
  {
    var dropped := |times| - |events|;
    assert forall i :: dropped <= i < |times| ==> times[i] == events[i - dropped];
    RecentAfterStale(times, dropped + cut, now);
  }

  datatype BlockStats = BlockStats(recent: nat, total: nat, backoff: int)

  class BlockGuard {
    var events: seq<int>
    var consecutive: nat
    var until: Option<int>
    var total: nat
    ghost var history: seq<Event>
    ghost var clock: int

    ghost predicate Valid()
      reads this
    {
      && consecutive == RunLength(history)
      && total == |RefusalTimes(history)|
      && IsLatest(until, HeldTo(history))
      && Pruned(RefusalTimes(history), events, clock)
    }

    constructor (ghost start: int)
      ensures Valid() && history == [] && clock == start
    {
      events, consecutive, until, total := [], 0, None, 0;
      history, clock := [], start;
    }

    method Refused(now: int)
      requires Valid() && clock <= now
      modifies this
      ensures Valid() && history == old(history) + [Refusal(now)] && clock == now
    {
      events := events + [now];
      consecutive := consecutive + 1;
      total := total + 1;
      var backoff := Min(BACKOFF_BASE * Pow2(Min(consecutive - 1, 5)), BACKOFF_MAX);
      ClampedShift(consecutive);
      OneMoreRefusal(RefusalTimes(history), old(events), clock, now);
      var t := now + backoff;
      if until.None? || t > until.value {
        until := Some(t);
      }
      history, clock := history + [Refusal(now)], now;
      assert history[..|history| - 1] == old(history);
    }

    method Loaded()
      requires Valid()
      modifies this`consecutive, this`history
      ensures Valid() && history == old(history) + [Load]
    {
      consecutive := 0;
      history := history + [Load];
      assert history[..|history| - 1] == old(history);
    }

    /** How long a page load is held back. */
    method Wait(now: int) returns (d: int)
      requires Valid() && clock <= now
      ensures forall t :: t in HeldTo(history) ==> t <= now + d
      ensures d == 0 || (d > 0 && now + d in HeldTo(history))
    {
      d := if until.Some? then Max(0, until.value - now) else 0;
    }

    /** The recent refusals are counted over everything ever told, though the list was pruned. */
    method Stats(now: int) returns (s: BlockStats)
      requires Valid() && clock <= now
      modifies this`events, this`clock
      ensures Valid() && clock == now
      ensures s.recent == Recent(RefusalTimes(history), now)
      ensures s.total == |RefusalTimes(history)|
      ensures s.backoff >= 0 && s.backoff % SECOND == 0
      ensures IsLatest(until, HeldTo(history))
      ensures until.Some? && until.value > now ==> s.backoff <= until.value - now < s.backoff + SECOND
      ensures until.None? || until.value <= now ==> s.backoff == 0
    {
      var cut := 0;
      while cut < |events| && now - events[cut] > WINDOW
        invariant cut <= |events|
        invariant forall i :: 0 <= i < cut ==> now - events[i] > WINDOW
      {
        cut := cut + 1;
      }
      StaleGo(RefusalTimes(history), events, clock, now, cut);
      events := events[cut..];
      clock := now;
      var left := if until.Some? then Max(0, until.value - now) else 0;
      s := BlockStats(|events|, total, Truncate(left));
    }
  }

  lemma {:induction false} HoldsAreBounded(history: seq<Event>, clock: int)
    requires forall i :: 0 <= i < |history| && history[i].Refusal? ==> history[i].at <= clock
    ensures forall t :: t in HeldTo(history) ==> t <= clock + BACKOFF_MAX
  {
    if history != [] {
      HoldsAreBounded(history[..|history| - 1], clock);
    }
  }

  /** No page is ever held back more than five minutes past the latest refusal. */
  lemma NeverHeldLonger(history: seq<Event>, until: int, clock: int)
    requires IsLatest(Some(until), HeldTo(history))
    requires forall i :: 0 <= i < |history| && history[i].Refusal? ==> history[i].at <= clock
    ensures until <= clock + BACKOFF_MAX
  {
    HoldsAreBounded(history, clock);
  }
}
