/**
 * Every interleaving of the jobs of one run with the writer and the exit monitor, when the writer
 * manages completion (gmaps/job.go, searchjob.go, place.go, emailjob.go, scraper/centralwriter.go,
 * exiter/exiter.go, rqueue/rqueue.go).
 *
 * One step is one locked region or one channel operation. A counting step judges `done` under the
 * lock; the send it may lead to is a step of its own, and anything may happen in between. Each job's
 * Process runs once, what it returns reaches the writer, and its follow-up jobs start only after it
 * has returned.
 */
module Completion {
  import opened Common
  import opened ExitMonitor
  import opened CentralWriters

  /** A seed (a search of either kind): counted as found first, as completed second. */
  datatype Seed = SeedReady | SeedFound | SeedCounted(done: bool) | SeedFinished

  /**
   * A place found by a seed. A failed one counts itself; one that gave an entry, directly or through
   * an e-mail job, is handed to the writer as (part of) a result.
   */
  datatype PlacePC = PlaceReady | PlaceFailing(done: bool) | PlaceFailed | PlaceEmail | PlaceHanded(result: nat)

  datatype Place = Place(seed: nat, pc: PlacePC)

  datatype ResultPC = Adding | Counted(done: bool) | Written

  /** One result for the writer: the entries of places first .. first + size, in order. */
  datatype Result = Result(seed: nat, first: nat, size: nat, added: nat, pc: ResultPC)

  datatype Monitor = Watching | Signalled | Flushed

  datatype State = State(
    counts: Counts,
    seeds: seq<Seed>,
    places: seq<Place>,
    results: seq<Result>,
    writer: Option<Tracked<nat, ()>>,
    signal: bool,
    monitor: Monitor,
    saved: Option<seq<nat>>)

  datatype Event =
    | SeedFails(seed: nat)
    | SeedFindsPlaces(seed: nat, found: nat)
    | SeedFindsEntries(seed: nat, found: nat)
    | SeedCompletes(seed: nat)
    | SeedSends(seed: nat)
    | PlaceFails(place: nat)
    | PlaceSends(place: nat)
    | PlaceGivesEntry(place: nat)
    | PlaceGivesEmailJob(place: nat)
    | EmailGivesEntry(place: nat)
    | WriterAdds(result: nat)
    | WriterCounts(result: nat)
    | WriterSends(result: nat)
    | MonitorReceives
    | MonitorFlushes
    | ForceFlush

  const JOB := "job"

  ghost predicate Init(s: State, seedCount: nat) {
    && s.counts == Counts(seedCount, 0, 0, 0)
    && |s.seeds| == seedCount
    && (forall i :: 0 <= i < |s.seeds| ==> s.seeds[i].SeedReady?)
    && s.places == [] && s.results == []
    && s.writer == Some(Tracked(JOB, [], ()))
    && !s.signal && s.monitor.Watching? && s.saved.None?
  }

  // ---------------------------------------------------------------------------------------------
  // The steps
  // ---------------------------------------------------------------------------------------------

  ghost predicate SeedIs(s: State, i: nat, pc: Seed) {
    i < |s.seeds| && s.seeds[i] == pc
  }

  /** A place's own job may run once its seed's Process has returned. */
  ghost predicate PlaceRuns(s: State, j: nat) {
    && j < |s.places|
    && SeedIs(s, s.places[j].seed, SeedFinished)
  }

  ghost predicate ResultIs(s: State, r: nat) {
    r < |s.results| && SeedIs(s, s.results[r].seed, SeedFinished)
  }

  function NewPlaces(seed: nat, n: nat, pc: PlacePC): seq<Place> {
    seq(n, _ => Place(seed, pc))
  }

  ghost predicate Step(s: State, e: Event, t: State) {
    match e
    case SeedFails(i) =>
      && SeedIs(s, i, SeedReady)
      && var c := s.counts.(seedCompleted := s.counts.seedCompleted + 1);
      t == s.(counts := c, seeds := s.seeds[i := SeedCounted(c.AllCounted())])
    case SeedFindsPlaces(i, n) =>
      && SeedIs(s, i, SeedReady)
      && t == s.(counts := s.counts.(placesFound := s.counts.placesFound + n),
                 seeds := s.seeds[i := SeedFound],
                 places := s.places + NewPlaces(i, n, PlaceReady))
    case SeedFindsEntries(i, n) =>
      && SeedIs(s, i, SeedReady)
      && t == s.(counts := s.counts.(placesFound := s.counts.placesFound + n),
                 seeds := s.seeds[i := SeedFound],
                 places := s.places + NewPlaces(i, n, PlaceHanded(|s.results|)),
                 results := s.results + [Result(i, |s.places|, n, 0, Adding)])
    case SeedCompletes(i) =>
      && SeedIs(s, i, SeedFound)
      && var c := s.counts.(seedCompleted := s.counts.seedCompleted + 1);
      t == s.(counts := c, seeds := s.seeds[i := SeedCounted(c.AllCounted())])
    case SeedSends(i) =>
      && i < |s.seeds| && s.seeds[i].SeedCounted?
      && t == s.(seeds := s.seeds[i := SeedFinished], signal := s.signal || s.seeds[i].done)
    case PlaceFails(j) =>
      && PlaceRuns(s, j) && s.places[j].pc.PlaceReady?
      && var c := s.counts.(placesCompleted := s.counts.placesCompleted + 1);
      t == s.(counts := c, places := s.places[j := s.places[j].(pc := PlaceFailing(c.AllCounted()))])
    case PlaceSends(j) =>
      && j < |s.places| && s.places[j].pc.PlaceFailing?
      && t == s.(places := s.places[j := s.places[j].(pc := PlaceFailed)], signal := s.signal || s.places[j].pc.done)
    case PlaceGivesEntry(j) =>
      && PlaceRuns(s, j) && s.places[j].pc.PlaceReady?
      && t == HandOver(s, j)
    case PlaceGivesEmailJob(j) =>
      && PlaceRuns(s, j) && s.places[j].pc.PlaceReady?
      && t == s.(places := s.places[j := s.places[j].(pc := PlaceEmail)])
    case EmailGivesEntry(j) =>
      && j < |s.places| && s.places[j].pc.PlaceEmail?
      && t == HandOver(s, j)
    case WriterAdds(r) =>
      && ResultIs(s, r) && s.results[r].pc.Adding? && s.results[r].added < s.results[r].size
      && t == s.(results := s.results[r := s.results[r].(added := s.results[r].added + 1)],
                 writer := Added(s.writer, JOB, s.results[r].first + s.results[r].added))
    case WriterCounts(r) =>
      && ResultIs(s, r) && s.results[r].pc.Adding? && s.results[r].added == s.results[r].size > 0
      && var c := s.counts.(placesCompleted := s.counts.placesCompleted + s.results[r].size);
      t == s.(counts := c, results := s.results[r := s.results[r].(pc := Counted(c.AllCounted()))])
    case WriterSends(r) =>
      && r < |s.results| && s.results[r].pc.Counted?
      && t == s.(results := s.results[r := s.results[r].(pc := Written)], signal := s.signal || s.results[r].pc.done)
    case MonitorReceives =>
      && s.signal && s.monitor.Watching?
      && t == s.(signal := false, monitor := Signalled)
    case MonitorFlushes =>
      && s.monitor.Signalled?
      && t == s.(monitor := Flushed, writer := Released(s.writer, JOB),
                 saved := if Tracks(s.writer, JOB) then Some(s.writer.value.entries) else s.saved)
    case ForceFlush =>
      t == s.(writer := Released(s.writer, JOB),
              saved := if Tracks(s.writer, JOB) then Some(s.writer.value.entries) else s.saved)
  }

  function HandOver(s: State, j: nat): State
    requires j < |s.places|
  {
    s.(places := s.places[j := s.places[j].(pc := PlaceHanded(|s.results|))],
       results := s.results + [Result(s.places[j].seed, j, 1, 0, Adding)])
  }

  // ---------------------------------------------------------------------------------------------
  // What has been counted and what has been added
  // ---------------------------------------------------------------------------------------------

  predicate SeedDone(p: Seed) {
    p.SeedCounted? || p.SeedFinished?
  }

  predicate PlaceDone(places: seq<Place>, results: seq<Result>, j: nat)
    requires j < |places|
  {
    match places[j].pc
    case PlaceFailing(_) => true
    case PlaceFailed => true
    case PlaceHanded(r) => r < |results| && !results[r].pc.Adding?
    case _ => false
  }

  /** The place's entry has been given to the writer. */
  predicate EntryAdded(places: seq<Place>, results: seq<Result>, j: nat)
    requires j < |places|
  {
    && places[j].pc.PlaceHanded?
    && var r := places[j].pc.result;
    r < |results| && j < results[r].first + results[r].added
  }

  ghost function SeedsDone(s: State): set<nat> {
    set i: nat | i < |s.seeds| && SeedDone(s.seeds[i])
  }

  ghost function PlacesDone(s: State): set<nat> {
    set j: nat | j < |s.places| && PlaceDone(s.places, s.results, j)
  }

  /** Every seed and every place found has been counted. */
  ghost predicate Quiet(s: State) {
    && (forall i :: 0 <= i < |s.seeds| ==> SeedDone(s.seeds[i]))
    && (forall j :: 0 <= j < |s.places| ==> PlaceDone(s.places, s.results, j))
  }

  /** Someone knows: holds a true `done` still to be sent, or it was sent. */
  ghost predicate Noticed(s: State) {
    || s.signal
    || !s.monitor.Watching?
    || (exists i :: 0 <= i < |s.seeds| && s.seeds[i] == SeedCounted(true))
    || (exists j :: 0 <= j < |s.places| && s.places[j].pc == PlaceFailing(true))
    || (exists r :: 0 <= r < |s.results| && s.results[r].pc == Counted(true))
  }

  // ---------------------------------------------------------------------------------------------
  // The invariant
  // ---------------------------------------------------------------------------------------------

  /** Places come from started seeds, and their own jobs run only once the seed's has returned. */
  ghost predicate SeedsLead(seeds: seq<Seed>, places: seq<Place>, results: seq<Result>) {
    && (forall j :: 0 <= j < |places| ==> places[j].seed < |seeds| && !seeds[places[j].seed].SeedReady?)
    && (forall j :: 0 <= j < |places| && (places[j].pc.PlaceFailing? || places[j].pc.PlaceFailed? || places[j].pc.PlaceEmail?) ==>
      SeedDone(seeds[places[j].seed]))
    && (forall r :: 0 <= r < |results| ==> results[r].seed < |seeds| && !seeds[results[r].seed].SeedReady?)
    && (forall r :: 0 <= r < |results| && !results[r].pc.Adding? ==> SeedDone(seeds[results[r].seed]))
  }

  /** Handed-over places and results name each other exactly. */
  ghost predicate HandedExactly(places: seq<Place>, results: seq<Result>) {
    && (forall j :: 0 <= j < |places| && places[j].pc.PlaceHanded? ==> Covers(results, places[j].pc.result, j))
    && (forall r :: 0 <= r < |results| ==> results[r].first + results[r].size <= |places|)
    && (forall r, j :: 0 <= r < |results| && 0 <= j < |places| && Covers(results, r, j) ==> places[j].pc == PlaceHanded(r))
  }

  ghost predicate Covers(results: seq<Result>, r: nat, j: nat) {
    r < |results| && results[r].first <= j < results[r].first + results[r].size
  }

  ghost predicate AddedInOrder(results: seq<Result>) {
    forall r :: 0 <= r < |results| ==>
      results[r].added <= results[r].size && (!results[r].pc.Adding? ==> results[r].added == results[r].size)
  }

  ghost predicate Linked(s: State) {
    && SeedsLead(s.seeds, s.places, s.results)
    && HandedExactly(s.places, s.results)
    && AddedInOrder(s.results)
  }

  ghost predicate CountsExact(s: State) {
    && s.counts.seedCount == |s.seeds|
    && s.counts.seedCompleted == |SeedsDone(s)|
    && s.counts.placesFound == |s.places|
    && s.counts.placesCompleted == |PlacesDone(s)|
  }

  /** While it is tracked, the run's writer holds each entry added so far, once. */
  ghost predicate WriterExact(s: State) {
    s.writer.Some? ==>
      && s.writer.value.jobID == JOB
      && Exactly(s.places, s.results, s.writer.value.entries)
  }

  ghost predicate Exactly(places: seq<Place>, results: seq<Result>, entries: seq<nat>) {
    && (forall a, b :: 0 <= a < b < |entries| ==> entries[a] != entries[b])
    && (forall j: nat :: j in entries <==> j < |places| && EntryAdded(places, results, j))
  }

  ghost predicate Inv(s: State) {
    && Linked(s)
    && CountsExact(s)
    && WriterExact(s)
    && (Noticed(s) <==> Quiet(s) && s.seeds != [])
  }

  // ---------------------------------------------------------------------------------------------
  // Every step keeps it
  // ---------------------------------------------------------------------------------------------

  lemma SeedsLeadPlaces(s: State, e: Event, t: State)
    requires SeedsLead(s.seeds, s.places, s.results) && Step(s, e, t)
    ensures forall j :: 0 <= j < |t.places| ==> t.places[j].seed < |t.seeds| && !t.seeds[t.places[j].seed].SeedReady?
    ensures forall j :: 0 <= j < |t.places| && (t.places[j].pc.PlaceFailing? || t.places[j].pc.PlaceFailed? || t.places[j].pc.PlaceEmail?) ==>
      SeedDone(t.seeds[t.places[j].seed])
  {
  }

  lemma SeedsLeadResults(s: State, e: Event, t: State)
    requires SeedsLead(s.seeds, s.places, s.results) && Step(s, e, t)
    ensures forall r :: 0 <= r < |t.results| ==> t.results[r].seed < |t.seeds| && !t.seeds[t.results[r].seed].SeedReady?
    ensures forall r :: 0 <= r < |t.results| && !t.results[r].pc.Adding? ==> SeedDone(t.seeds[t.results[r].seed])
  {
  }

  lemma HandedAreCovered(s: State, e: Event, t: State)
    requires HandedExactly(s.places, s.results) && Step(s, e, t)
    ensures forall j :: 0 <= j < |t.places| && t.places[j].pc.PlaceHanded? ==> Covers(t.results, t.places[j].pc.result, j)
    ensures forall r :: 0 <= r < |t.results| ==> t.results[r].first + t.results[r].size <= |t.places|
  {
  }

  lemma CoveredAreHanded(s: State, e: Event, t: State)
    requires HandedExactly(s.places, s.results) && Step(s, e, t)
    ensures forall r, j :: 0 <= r < |t.results| && 0 <= j < |t.places| && Covers(t.results, r, j) ==> t.places[j].pc == PlaceHanded(r)
  {
    forall r, j | 0 <= r < |t.results| && 0 <= j < |t.places| && Covers(t.results, r, j)
      ensures t.places[j].pc == PlaceHanded(r)
    {
      assert r < |s.results| ==> Covers(s.results, r, j);
    }
  }

  lemma AddedKept(s: State, e: Event, t: State)
    requires AddedInOrder(s.results) && Step(s, e, t)
    ensures AddedInOrder(t.results)
  {
  }

  /** The seeds, and the places, that this step counts. */
  ghost function SeedsCountedBy(e: Event): set<nat> {
    match e
    case SeedFails(i) => {i}
    case SeedCompletes(i) => {i}
    case _ => {}
  }

  ghost function PlacesCountedBy(s: State, e: Event): set<nat> {
    match e
    case PlaceFails(j) => {j}
    case WriterCounts(r) => if r < |s.results| then Range(s.results[r].first, s.results[r].size) else {}
    case _ => {}
  }

  ghost function Range(first: nat, n: nat): (r: set<nat>)
    ensures forall j: nat :: j in r <==> first <= j < first + n
    ensures |r| == n
  {
    if n == 0 then {} else Range(first, n - 1) + {first + n - 1}
  }

  lemma SeedsDoneGrow(s: State, e: Event, t: State)
    requires Step(s, e, t)
    ensures SeedsDone(t) == SeedsDone(s) + SeedsCountedBy(e)
    ensures SeedsDone(s) !! SeedsCountedBy(e)
  {
  }

  /** Counting a result makes exactly the places it covers done. */
  lemma WriterCountsItsPlaces(s: State, r: nat, t: State)
    requires HandedExactly(s.places, s.results) && Step(s, WriterCounts(r), t)
    ensures forall j :: 0 <= j < |s.places| ==>
      (PlaceDone(t.places, t.results, j) <==> PlaceDone(s.places, s.results, j) || Covers(s.results, r, j))
    ensures forall j :: 0 <= j < |s.places| && Covers(s.results, r, j) ==> !PlaceDone(s.places, s.results, j)
  {
    assert forall j :: 0 <= j < |s.places| && s.places[j].pc.PlaceHanded? ==> Covers(s.results, s.places[j].pc.result, j);
  }

  lemma PlacesDoneGrow(s: State, e: Event, t: State)
    requires Linked(s) && Step(s, e, t)
    ensures PlacesDone(t) == PlacesDone(s) + PlacesCountedBy(s, e)
    ensures PlacesDone(s) !! PlacesCountedBy(s, e)
  {
    if e.WriterCounts? {
      WriterCountsItsPlaces(s, e.result, t);
      assert forall j: nat :: j in PlacesCountedBy(s, e) <==> Covers(s.results, e.result, j);
    } else if e.PlaceFails? {
      FailingIsDone(s, e.place, t);
    } else {
      OthersDoneGrow(s, e, t);
    }
  }

  lemma FailingIsDone(s: State, j: nat, t: State)
    requires Step(s, PlaceFails(j), t)
    ensures PlacesDone(t) == PlacesDone(s) + {j} && j !in PlacesDone(s)
  {
  }

  lemma OthersDoneGrow(s: State, e: Event, t: State)
    requires HandedExactly(s.places, s.results) && Step(s, e, t) && !e.WriterCounts? && !e.PlaceFails?
    ensures PlacesDone(t) == PlacesDone(s)
  {
  }

  lemma CountsKept(s: State, e: Event, t: State)
    requires Linked(s) && CountsExact(s) && Step(s, e, t)
    ensures CountsExact(t)
  {
    SeedsDoneGrow(s, e, t);
    PlacesDoneGrow(s, e, t);
  }

  /** Only the writer's own step gives it an entry, and that entry is a new one. */
  lemma EntriesAddedGrow(s: State, e: Event, t: State)
    requires HandedExactly(s.places, s.results) && AddedInOrder(s.results) && Step(s, e, t)
    ensures forall j: nat :: (j < |t.places| && EntryAdded(t.places, t.results, j)) <==>
      || (j < |s.places| && EntryAdded(s.places, s.results, j))
      || (e.WriterAdds? && j == s.results[e.result].first + s.results[e.result].added)
  {
    if e.WriterAdds? {
      assert Covers(s.results, e.result, s.results[e.result].first + s.results[e.result].added);
    }
    assert forall j :: 0 <= j < |s.places| && s.places[j].pc.PlaceHanded? ==> Covers(s.results, s.places[j].pc.result, j);
  }

  lemma WriterKept(s: State, e: Event, t: State)
    requires HandedExactly(s.places, s.results) && AddedInOrder(s.results) && WriterExact(s) && Step(s, e, t)
    ensures WriterExact(t)
  {
    EntriesAddedGrow(s, e, t);
    if e.WriterAdds? {
      var x := s.results[e.result].first + s.results[e.result].added;
      assert Covers(s.results, e.result, x);
      assert !EntryAdded(s.places, s.results, x);
    }
  }

  lemma LinkedKept(s: State, e: Event, t: State)
    requires Linked(s) && Step(s, e, t)
    ensures Linked(t)
  {
    SeedsLeadPlaces(s, e, t);
    SeedsLeadResults(s, e, t);
    HandedAreCovered(s, e, t);
    CoveredAreHanded(s, e, t);
    AddedKept(s, e, t);
  }

  lemma {:induction false} FullSet(done: set<nat>, n: nat)
    requires done <= Range(0, n)
    ensures |done| <= n
    ensures |done| == n <==> done == Range(0, n)
  {
    var missing := Range(0, n) - done;
    assert Range(0, n) == done + missing;
    if done != Range(0, n) {
      var j :| j in missing;
      assert |missing| == |missing - {j}| + 1;
    }
  }

  /** The monitor's arithmetic test means what it should: everything found has been counted. */
  lemma AllCountedMeansQuiet(s: State)
    requires CountsExact(s)
    ensures s.counts.AllCounted() <==> Quiet(s)
  {
    FullSet(SeedsDone(s), |s.seeds|);
    FullSet(PlacesDone(s), |s.places|);
    QuietIsFull(s);
  }

  lemma QuietIsFull(s: State)
    ensures Quiet(s) <==> SeedsDone(s) == Range(0, |s.seeds|) && PlacesDone(s) == Range(0, |s.places|)
  {
    if SeedsDone(s) == Range(0, |s.seeds|) && PlacesDone(s) == Range(0, |s.places|) {
      forall i: nat | i < |s.seeds| ensures SeedDone(s.seeds[i]) {
        assert i in Range(0, |s.seeds|);
      }
      forall j: nat | j < |s.places| ensures PlaceDone(s.places, s.results, j) {
        assert j in Range(0, |s.places|);
      }
    }
  }

  predicate IsCount(e: Event) {
    e.SeedFails? || e.SeedCompletes? || e.PlaceFails? || e.WriterCounts?
  }

  /** A step that counts is the first to know when nothing is left to count. */
  lemma CountingNotices(s: State, e: Event, t: State)
    requires Inv(s) && Step(s, e, t) && IsCount(e) && CountsExact(t)
    ensures Noticed(t) <==> Quiet(t)
    ensures t.seeds != []
  {
    AllCountedMeansQuiet(t);
    StillToCount(s, e, t);
    NobodyElseKnows(s, e, t);
  }

  lemma StillToCount(s: State, e: Event, t: State)
    requires Linked(s) && Step(s, e, t) && IsCount(e)
    ensures !Quiet(s) && t.seeds != []
  {
    match e
    case SeedFails(i) => assert !SeedDone(s.seeds[i]);
    case SeedCompletes(i) => assert !SeedDone(s.seeds[i]);
    case PlaceFails(j) => assert !PlaceDone(s.places, s.results, j);
    case WriterCounts(r) =>
      var j := s.results[r].first;
      assert Covers(s.results, r, j);
      assert !PlaceDone(s.places, s.results, j);
  }

  /** After a counting step, only its own verdict can be a true one still to be sent. */
  lemma NobodyElseKnows(s: State, e: Event, t: State)
    requires Step(s, e, t) && IsCount(e) && !Noticed(s)
    ensures Noticed(t) <==> t.counts.AllCounted()
  {
    if t.counts.AllCounted() {
      assert match e
        case SeedFails(i) => t.seeds[i] == SeedCounted(true)
        case SeedCompletes(i) => t.seeds[i] == SeedCounted(true)
        case PlaceFails(j) => t.places[j].pc == PlaceFailing(true)
        case WriterCounts(r) => t.results[r].pc == Counted(true)
        case _ => false;
    }
    if i :| 0 <= i < |t.seeds| && t.seeds[i] == SeedCounted(true) {
      assert s.seeds[i] != SeedCounted(true);
    }
    if j :| 0 <= j < |t.places| && t.places[j].pc == PlaceFailing(true) {
      assert s.places[j].pc != PlaceFailing(true);
    }
    if r :| 0 <= r < |t.results| && t.results[r].pc == Counted(true) {
      assert s.results[r].pc != Counted(true);
    }
  }

  lemma OthersLeaveQuiet(s: State, e: Event, t: State)
    requires Linked(s) && Step(s, e, t) && !IsCount(e)
    ensures Quiet(t) <==> Quiet(s)
  {
    if e.SeedFindsPlaces? || e.SeedFindsEntries? {
      FindingIsNotQuiet(s, e, t);
    } else {
      OthersFinishNothing(s, e, t);
      QuietIsFull(s);
      QuietIsFull(t);
    }
  }

  /** A seed that finds places is itself still to be counted, before and after. */
  lemma FindingIsNotQuiet(s: State, e: Event, t: State)
    requires Step(s, e, t) && (e.SeedFindsPlaces? || e.SeedFindsEntries?)
    ensures !Quiet(s) && !Quiet(t)
  {
    assert !SeedDone(s.seeds[e.seed]) && !SeedDone(t.seeds[e.seed]);
  }

  lemma OthersFinishNothing(s: State, e: Event, t: State)
    requires Linked(s) && Step(s, e, t) && !IsCount(e) && !e.SeedFindsPlaces? && !e.SeedFindsEntries?
    ensures SeedsDone(t) == SeedsDone(s) && PlacesDone(t) == PlacesDone(s)
    ensures |t.seeds| == |s.seeds| && |t.places| == |s.places|
  {
    PlacesDoneGrow(s, e, t);
    SeedsDoneGrow(s, e, t);
  }

  lemma OthersKeepKnowing(s: State, e: Event, t: State)
    requires Step(s, e, t) && !IsCount(e) && Noticed(s)
    ensures Noticed(t)
  {
    if i :| 0 <= i < |s.seeds| && s.seeds[i] == SeedCounted(true) {
      assert t.seeds[i] == SeedCounted(true) || t.signal;
    }
    if j :| 0 <= j < |s.places| && s.places[j].pc == PlaceFailing(true) {
      assert t.places[j].pc == PlaceFailing(true) || t.signal;
    }
    if r :| 0 <= r < |s.results| && s.results[r].pc == Counted(true) {
      assert t.results[r].pc == Counted(true) || t.signal;
    }
  }

  lemma OthersLearnNothing(s: State, e: Event, t: State)
    requires Step(s, e, t) && !IsCount(e) && Noticed(t)
    ensures Noticed(s)
  {
    if i :| 0 <= i < |t.seeds| && t.seeds[i] == SeedCounted(true) {
      assert s.seeds[i] == SeedCounted(true);
    }
    if j :| 0 <= j < |t.places| && t.places[j].pc == PlaceFailing(true) {
      assert s.places[j].pc == PlaceFailing(true);
    }
    if r :| 0 <= r < |t.results| && t.results[r].pc == Counted(true) {
      assert s.results[r].pc == Counted(true);
    }
  }

  lemma InvKept(s: State, e: Event, t: State)
    requires Inv(s) && Step(s, e, t)
    ensures Inv(t)
  {
    LinkedKept(s, e, t);
    CountsKept(s, e, t);
    WriterKept(s, e, t);
    if IsCount(e) {
      CountingNotices(s, e, t);
    } else {
      OthersLeaveQuiet(s, e, t);
      if Noticed(s) {
        OthersKeepKnowing(s, e, t);
      } else if Noticed(t) {
        OthersLearnNothing(s, e, t);
      }
    }
  }

  // ---------------------------------------------------------------------------------------------
  // Whole runs
  // ---------------------------------------------------------------------------------------------

  /** A run of any length, in any interleaving, over any number of seeds. */
  ghost predicate Run(states: seq<State>, events: seq<Event>, seedCount: nat) {
    && |states| == |events| + 1
    && Init(states[0], seedCount)
    && forall i :: 0 <= i < |events| ==> Step(states[i], events[i], states[i + 1])
  }

  lemma InitInv(s: State, seedCount: nat)
    requires Init(s, seedCount)
    ensures Inv(s)
  {
    assert SeedsDone(s) == {} && PlacesDone(s) == {};
    assert s.seeds != [] ==> !SeedDone(s.seeds[0]);
  }

  lemma {:induction false} RunInv(states: seq<State>, events: seq<Event>, seedCount: nat, i: nat)
    requires Run(states, events, seedCount) && i < |states|
    ensures Inv(states[i]) && |states[i].seeds| == seedCount
  {
    if i == 0 {
      InitInv(states[0], seedCount);
    } else {
      RunInv(states, events, seedCount, i - 1);
      InvKept(states[i - 1], events[i - 1], states[i]);
    }
  }

  /** No job is between counting and sending. */
  ghost predicate NothingToSend(s: State) {
    && (forall i :: 0 <= i < |s.seeds| ==> !s.seeds[i].SeedCounted?)
    && (forall j :: 0 <= j < |s.places| ==> !s.places[j].pc.PlaceFailing?)
    && (forall r :: 0 <= r < |s.results| ==> !s.results[r].pc.Counted?)
  }

  /** Every place that did not fail. */
  ghost function Successful(s: State): set<nat> {
    set j: nat | j < |s.places| && !s.places[j].pc.PlaceFailed? && !s.places[j].pc.PlaceFailing?
  }

  /**
   * The signal is never early: when it is there, every seed is counted, every place found is counted
   * and every successful place's entry has been given to the writer.
   */
  lemma SignalIsNeverEarly(states: seq<State>, events: seq<Event>, seedCount: nat, i: nat)
    requires Run(states, events, seedCount) && i < |states|
    requires states[i].signal || !states[i].monitor.Watching?
    ensures Quiet(states[i])
    ensures forall j :: j in Successful(states[i]) ==> EntryAdded(states[i].places, states[i].results, j)
  {
    RunInv(states, events, seedCount, i);
    QuietMeansAllAdded(states[i]);
  }

  lemma QuietMeansAllAdded(s: State)
    requires Inv(s) && Quiet(s)
    ensures forall j: nat :: j in Successful(s) <==> j < |s.places| && EntryAdded(s.places, s.results, j)
  {
    forall j | j in Successful(s) ensures EntryAdded(s.places, s.results, j) {
      assert PlaceDone(s.places, s.results, j);
      assert Covers(s.results, s.places[j].pc.result, j);
    }
  }

  /** And it is never lost: once all is counted and sent, it is there, or was received. */
  lemma SignalIsNeverLost(states: seq<State>, events: seq<Event>, seedCount: nat, i: nat)
    requires Run(states, events, seedCount) && i < |states|
    requires Quiet(states[i]) && NothingToSend(states[i])
    ensures seedCount > 0 <==> states[i].signal || !states[i].monitor.Watching?
  {
    RunInv(states, events, seedCount, i);
  }

  /** Without a forced flush, nothing is saved before the monitor's own, and nothing is added after. */
  ghost predicate FlushedOnce(s: State) {
    if s.monitor.Flushed? then s.saved.Some? && s.writer.None? && Exactly(s.places, s.results, s.saved.value)
    else s.saved.None? && s.writer.Some?
  }

  lemma FlushedOnceKept(s: State, e: Event, t: State)
    requires Inv(s) && FlushedOnce(s) && Step(s, e, t) && !e.ForceFlush?
    ensures FlushedOnce(t)
  {
    EntriesAddedGrow(s, e, t);
    if e.WriterAdds? {
      var j := s.results[e.result].first;
      assert Covers(s.results, e.result, j) && !PlaceDone(s.places, s.results, j);
    }
  }

  lemma {:induction false} RunFlushesOnce(states: seq<State>, events: seq<Event>, seedCount: nat, i: nat)
    requires Run(states, events, seedCount) && i < |states|
    requires forall k :: 0 <= k < i ==> !events[k].ForceFlush?
    ensures FlushedOnce(states[i])
  {
    if i > 0 {
      RunFlushesOnce(states, events, seedCount, i - 1);
      RunInv(states, events, seedCount, i - 1);
      FlushedOnceKept(states[i - 1], events[i - 1], states[i]);
    }
  }

  /**
   * With no earlier forced flush, what the monitor's flush saves is exactly one entry for each
   * successful place, at a point where every place has been found and counted.
   */
  lemma FlushSavesEverySuccess(states: seq<State>, events: seq<Event>, seedCount: nat, i: nat)
    requires Run(states, events, seedCount) && i < |states|
    requires forall k :: 0 <= k < i ==> !events[k].ForceFlush?
    requires states[i].monitor.Flushed?
    ensures Quiet(states[i]) && states[i].saved.Some?
    ensures forall j: nat :: j in states[i].saved.value <==> j in Successful(states[i])
    ensures |states[i].saved.value| == |Successful(states[i])|
  {
    var s := states[i];
    RunInv(states, events, seedCount, i);
    RunFlushesOnce(states, events, seedCount, i);
    QuietMeansAllAdded(s);
    DistinctSize(s.saved.value, Successful(s));
  }

  lemma {:induction false} DistinctSize(list: seq<nat>, elements: set<nat>)
    requires forall a, b :: 0 <= a < b < |list| ==> list[a] != list[b]
    requires forall j :: j in list <==> j in elements
    ensures |list| == |elements|
  {
    if list == [] {
      assert elements == {};
    } else {
      var last := list[|list| - 1];
      var front := list[..|list| - 1];
      assert list == front + [last];
      DistinctSize(front, elements - {last});
    }
  }
}
