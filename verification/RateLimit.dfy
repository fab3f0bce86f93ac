/**
 * The fixed-window rate limiter kept in a database table (ratelimit/postgres/postgres.go): one row a
 * key, changed by one statement a call. The clock is an integer; the caller's clock does not run back.
 */
module RateLimits {
  import opened Common

  datatype Row = Row(counter: nat, start: int)

  datatype Verdict = Verdict(allowed: bool, remaining: nat, resetAt: int)

  datatype Event =
    | Check(now: int, key: string, limit: int, window: int)
    | Reset(now: int, key: string)
    | Cleanup(now: int, age: int)

  function Lookup<K, V>(rows: map<K, V>, key: K): Option<V> {
    if key in rows then Some(rows[key]) else None
  }

  /** The row after one more call: a new window when there is none or the last has run out. */
  function Upsert(row: Option<Row>, now: int, window: int): Row {
    match row
    case None => Row(1, now)
    case Some(r) => if r.start + window <= now then Row(1, now) else Row(r.counter + 1, r.start)
  }

  function Judge(row: Row, limit: int, window: int): Verdict {
    Verdict(row.counter <= limit, Max(0, limit - row.counter), row.start + window)
  }

  /** What one call makes of the table. */
  function Apply(rows: map<string, Row>, e: Event): map<string, Row> {
    match e
    case Check(now, key, _, window) => rows[key := Upsert(Lookup(rows, key), now, window)]
    case Reset(_, key) => rows - {key}
    case Cleanup(now, age) => map k | k in rows && rows[k].start >= now - age :: rows[k]
  }

  class Limiter {
    var rows: map<string, Row>

    constructor ()
      ensures rows == map[]
    {
      rows := map[];
    }

    method Check(now: int, key: string, limit: int, window: int) returns (v: Verdict)
      modifies this
      ensures rows == Apply(old(rows), Event.Check(now, key, limit, window))
      ensures v.allowed <==> rows[key].counter <= limit
      ensures v.remaining == (if v.allowed then limit - rows[key].counter else 0)
      ensures v == Judge(rows[key], limit, window) && v.resetAt == rows[key].start + window
      ensures key !in old(rows) || old(rows)[key].start + window <= now ==> rows[key] == Row(1, now)
      ensures key in old(rows) && now < old(rows)[key].start + window ==>
        rows[key] == Row(old(rows)[key].counter + 1, old(rows)[key].start)
      ensures forall k :: k != key ==> Lookup(rows, k) == Lookup(old(rows), k)
    {
      var row := Row(1, now);
      if key in rows {
        if rows[key].start + window <= now {
          row := Row(1, now);
        } else {
          row := Row(rows[key].counter + 1, rows[key].start);
        }
      }
      rows := rows[key := row];
      var remaining := limit - row.counter;
      if remaining < 0 {
        remaining := 0;
      }
      v := Verdict(row.counter <= limit, remaining, row.start + window);
    }

    method Reset(now: int, key: string)
      modifies this
      ensures rows == Apply(old(rows), Event.Reset(now, key))
    {
      rows := rows - {key};
    }

    method Cleanup(now: int, age: int) returns (removed: nat)
      modifies this
      ensures rows == Apply(old(rows), Event.Cleanup(now, age))
      ensures removed == |set k | k in old(rows) && old(rows)[k].start < now - age|
    {
      var cutoff := now - age;
      var expired := set k | k in rows && rows[k].start < cutoff;
      removed := |expired|;
      rows := rows - expired;
    }
  }

  // ---------------------------------------------------------------------------------------------
  // Whole runs
  // ---------------------------------------------------------------------------------------------

  datatype Answer = Answer(at: int, verdict: Verdict)

  /** What the calls for one key are answered, in order, starting from the given table. */
  function Answers(rows: map<string, Row>, events: seq<Event>, key: string): seq<Answer>
    decreases |events|
  {
    if events == [] then []
    else
      var e, next := events[0], Apply(rows, events[0]);
      (if e.Check? && e.key == key then [Answer(e.now, Judge(next[key], e.limit, e.window))] else [])
      + Answers(next, events[1..], key)
  }

  predicate Ordered(events: seq<Event>) {
    forall i, j :: 0 <= i < j < |events| ==> events[i].now <= events[j].now
  }

  function WithoutCleanups(events: seq<Event>): seq<Event> {
    if events == [] then []
    else (if events[0].Cleanup? then [] else [events[0]]) + WithoutCleanups(events[1..])
  }

  /** The key's windows are no longer than `window`, and rows are only removed after that age. */
  predicate AgesCover(events: seq<Event>, key: string, window: int) {
    forall i :: 0 <= i < |events| ==>
      && (events[i].Check? && events[i].key == key ==> events[i].window <= window)
      && (events[i].Cleanup? ==> events[i].age >= window)
  }

  /** Two tables that no call for the key can tell apart from `now` on. */
  ghost predicate Alike(cleaned: Option<Row>, row: Option<Row>, now: int, window: int) {
    cleaned == row || (cleaned.None? && row.Some? && row.value.start + window <= now)
  }

  lemma {:induction false} CleanedAnswersAlike(
      cleaned: map<string, Row>, rows: map<string, Row>, events: seq<Event>, key: string, now: int, window: int)
    requires Ordered(events) && AgesCover(events, key, window)
    requires events != [] ==> now <= events[0].now
    requires Alike(Lookup(cleaned, key), Lookup(rows, key), now, window)
    ensures Answers(cleaned, events, key) == Answers(rows, WithoutCleanups(events), key)
    decreases |events|
  {
    if events != [] {
      var e, rest := events[0], events[1..];
      if e.Cleanup? {
        CleanedAnswersAlike(Apply(cleaned, e), rows, rest, key, e.now, window);
        assert WithoutCleanups(events) == WithoutCleanups(rest);
        assert Answers(cleaned, events, key) == Answers(Apply(cleaned, e), rest, key);
      } else {
        var left := WithoutCleanups(rest);
        CleanedAnswersAlike(Apply(cleaned, e), Apply(rows, e), rest, key, e.now, window);
        assert WithoutCleanups(events)[0] == e && WithoutCleanups(events)[1..] == left;
      }
    }
  }

  /** Removing rows at least one window old never changes what any later call is answered. */
  lemma CleanupIsInvisible(rows: map<string, Row>, events: seq<Event>, key: string, window: int)
    requires Ordered(events) && AgesCover(events, key, window)
    ensures Answers(rows, events, key) == Answers(rows, WithoutCleanups(events), key)
  {
    CleanedAnswersAlike(rows, rows, events, key, if events == [] then 0 else events[0].now, window);
  }

  /** The calls allowed from `from` up to but not including `to`. */
  function AllowedIn(answers: seq<Answer>, from: int, to: int): nat {
    if answers == [] then 0
    else (if from <= answers[0].at < to && answers[0].verdict.allowed then 1 else 0) + AllowedIn(answers[1..], from, to)
  }

  /** One limit and window for the key, which is never reset. */
  predicate Steady(events: seq<Event>, key: string, limit: int, window: int) {
    forall i :: 0 <= i < |events| ==>
      && (events[i].Check? && events[i].key == key ==> events[i].limit == limit && events[i].window == window)
      && !(events[i].Reset? && events[i].key == key)
  }

  predicate NoCleanups(events: seq<Event>) {
    forall i :: 0 <= i < |events| ==> !events[i].Cleanup?
  }

  function Ceiling(limit: int): nat {
    if limit <= 0 then 0 else 2 * limit - 1
  }

  /**
   * How many calls of [from, from + window) can have been allowed by `now`, given the key's row. Of a
   * window that began before `from`, the first call was too early to count; and the window before one
   * that began inside the interval began before it.
   */
  ghost predicate WithinCeiling(row: Option<Row>, now: int, n: nat, from: int, limit: int, window: int) {
    && (limit <= 0 || now < from || row.None? ==> n == 0)
    && (limit > 0 && row.Some? ==>
        && 1 <= row.value.counter
        && row.value.start <= now
        && (row.value.start < from ==> n <= Min(row.value.counter, limit) - 1)
        && (from <= row.value.start < from + window ==> n <= limit - 1 + Min(row.value.counter, limit))
        && n <= 2 * limit - 1)
  }

  lemma OneMoreCall(row: Option<Row>, last: int, now: int, n: nat, from: int, limit: int, window: int)
    requires last <= now && WithinCeiling(row, last, n, from, limit, window)
    ensures var next := Upsert(row, now, window);
      WithinCeiling(Some(next), now, n + if from <= now < from + window && next.counter <= limit then 1 else 0,
                    from, limit, window)
  {
  }

  lemma {:induction false} CeilingHolds(
      rows: map<string, Row>, events: seq<Event>, key: string, last: int, n: nat, from: int, limit: int, window: int)
    requires Ordered(events) && Steady(events, key, limit, window) && NoCleanups(events)
    requires events != [] ==> last <= events[0].now
    requires WithinCeiling(Lookup(rows, key), last, n, from, limit, window)
    ensures n + AllowedIn(Answers(rows, events, key), from, from + window) <= Ceiling(limit)
    decreases |events|
  {
    if events != [] {
      var e, rest := events[0], events[1..];
      var next := Apply(rows, e);
      if e.Check? && e.key == key {
        OneMoreCall(Lookup(rows, key), last, e.now, n, from, limit, window);
        var more := if from <= e.now < from + window && next[key].counter <= limit then 1 else 0;
        CeilingHolds(next, rest, key, e.now, n + more, from, limit, window);
        assert Answers(rows, events, key)[1..] == Answers(next, rest, key);
      } else {
        assert Lookup(next, key) == Lookup(rows, key);
        assert Answers(rows, events, key) == Answers(next, rest, key);
        CeilingHolds(next, rest, key, last, n, from, limit, window);
      }
    }
  }

  lemma {:induction false} WithoutCleanupsFacts(events: seq<Event>, key: string, limit: int, window: int)
    requires Ordered(events) && Steady(events, key, limit, window)
    ensures var kept := WithoutCleanups(events);
      && Ordered(kept) && Steady(kept, key, limit, window) && NoCleanups(kept)
      && (forall e :: e in kept ==> e in events)
  {
    if events != [] {
      WithoutCleanupsFacts(events[1..], key, limit, window);
      var kept := WithoutCleanups(events[1..]);
      forall i | 0 <= i < |kept| ensures events[0].now <= kept[i].now {
        assert kept[i] in events[1..];
      }
    }
  }

  /**
   * From an empty table, any half-open interval one window long holds fewer than twice the limit of
   * allowed calls for a key, with any mix of other keys' calls and of removals of rows a window old.
   */
  lemma FewerThanTwiceTheLimit(events: seq<Event>, key: string, from: int, limit: int, window: int)
    requires Ordered(events) && Steady(events, key, limit, window) && AgesCover(events, key, window)
    ensures AllowedIn(Answers(map[], events, key), from, from + window) <= Ceiling(limit)
  {
    CleanupIsInvisible(map[], events, key, window);
    WithoutCleanupsFacts(events, key, limit, window);
    var kept := WithoutCleanups(events);
    CeilingHolds(map[], kept, key, if kept == [] then 0 else kept[0].now, 0, from, limit, window);
  }

  // ---------------------------------------------------------------------------------------------
  // No smaller bound holds
  // ---------------------------------------------------------------------------------------------

  /** `n` calls for the key at once. */
  function Burst(n: nat, now: int, key: string, limit: int, window: int): (r: seq<Event>)
    ensures |r| == n && forall i :: 0 <= i < n ==> r[i] == Check(now, key, limit, window)
  {
    seq(n, _ => Check(now, key, limit, window))
  }

  lemma {:induction false} BurstIsAllowed(
      rows: map<string, Row>, n: nat, now: int, key: string, limit: int, window: int, rest: seq<Event>, from: int, to: int)
    requires key in rows && from <= now < to && now < rows[key].start + window
    requires rows[key].counter + n <= limit
    ensures var after := rows[key := Row(rows[key].counter + n, rows[key].start)];
      AllowedIn(Answers(rows, Burst(n, now, key, limit, window) + rest, key), from, to)
      == n + AllowedIn(Answers(after, rest, key), from, to)
  {
    var events := Burst(n, now, key, limit, window) + rest;
    if n == 0 {
      assert events == rest;
      assert rows[key := rows[key]] == rows;
    } else {
      var next := Apply(rows, events[0]);
      assert events[1..] == Burst(n - 1, now, key, limit, window) + rest;
      BurstIsAllowed(next, n - 1, now, key, limit, window, rest, from, to);
      assert next[key := Row(next[key].counter + (n - 1), next[key].start)]
          == rows[key := Row(rows[key].counter + n, rows[key].start)];
      assert Answers(rows, events, key)[1..] == Answers(next, events[1..], key);
    }
  }

  /** One early call, the rest of its window's allowance at the end, then the next window's all at once. */
  function Straddle(key: string, limit: nat, window: int): seq<Event>
    requires limit > 0
  {
    [Check(0, key, limit, window)] + (Burst(limit - 1, window - 1, key, limit, window)
      + ([Check(window, key, limit, window)] + Burst(limit - 1, window, key, limit, window)))
  }

  lemma StraddleIsOrderly(key: string, limit: nat, window: int)
    requires limit > 0 && window >= 2
    ensures var events := Straddle(key, limit, window);
      Ordered(events) && Steady(events, key, limit, window) && AgesCover(events, key, window)
  {
    var events := Straddle(key, limit, window);
    forall i | 0 <= i < |events|
      ensures events[i] == Check(if i == 0 then 0 else if i < limit then window - 1 else window, key, limit, window)
    {
    }
  }

  lemma SecondWindowIsAllowed(key: string, limit: nat, window: int, rows: map<string, Row>)
    requires limit > 0 && window >= 2 && key in rows && rows[key].start == 0
    ensures var second := [Check(window, key, limit, window)] + Burst(limit - 1, window, key, limit, window);
      AllowedIn(Answers(rows, second, key), 1, 1 + window) == limit
  {
    var last := Burst(limit - 1, window, key, limit, window);
    var second := [Check(window, key, limit, window)] + last;
    var again := rows[key := Row(1, window)];
    assert second[1..] == last && Apply(rows, second[0]) == again;
    assert Answers(rows, second, key)[1..] == Answers(again, last, key);
    BurstIsAllowed(again, limit - 1, window, key, limit, window, [], 1, 1 + window);
    assert last + [] == last;
  }

  /** For every limit and every window of two ticks or more, some run reaches the ceiling. */
  lemma TheCeilingIsReached(key: string, limit: nat, window: int)
    requires limit > 0 && window >= 2
    ensures var events := Straddle(key, limit, window);
      && Ordered(events) && Steady(events, key, limit, window) && AgesCover(events, key, window)
      && AllowedIn(Answers(map[], events, key), 1, 1 + window) == Ceiling(limit)
  {
    StraddleIsOrderly(key, limit, window);
    var events := Straddle(key, limit, window);
    var second := [Check(window, key, limit, window)] + Burst(limit - 1, window, key, limit, window);
    var rest := Burst(limit - 1, window - 1, key, limit, window) + second;
    var one: map<string, Row> := map[][key := Row(1, 0)];
    var full := one[key := Row(limit, 0)];
    assert events[0] == Check(0, key, limit, window) && events[1..] == rest;
    assert Answers(map[], events, key)[1..] == Answers(one, rest, key);
    BurstIsAllowed(one, limit - 1, window - 1, key, limit, window, second, 1, 1 + window);
    SecondWindowIsAllowed(key, limit, window, full);
  }
}
