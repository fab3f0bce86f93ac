/**
 * Racing flushes, discards and registrations of one central writer, and the workers waiting on them
 * (scraper/centralwriter.go, rqueue/rqueue.go).
 *
 * One step is one locked region, one save, or one channel operation. Any number of flushes may be
 * under way at once; job ids may be registered again, or come from a worker that has long returned.
 */
module FlushProtocol {
  import opened Common
  import opened CentralWriters

  /** An entry and the job id it is tagged with. */
  datatype Entry = Entry(jobID: string, place: nat)

  datatype Save = Save(entries: seq<Entry>, ok: bool)

  /** Why a worker stopped waiting for the ordinary completion. */
  datatype Cause = TimerRanOut | ContextDeadline | ContextCancelled | SubmitFailed

  datatype Worker = Waiting | Forcing(cause: Cause) | Returned(success: bool)

  /** A registration, what was saved and sent for it, its one-slot channel, and the worker on it. */
  datatype Registration = Registration(
    jobID: string, saves: seq<Save>, sent: seq<FlushResult>, slot: Option<FlushResult>, worker: Worker)

  /** A flush that took a registration: about to save, or about to send. */
  datatype Flush = Taken(job: Tracked<Entry, nat>) | Saved(job: Tracked<Entry, nat>, ok: bool) | Sent(job: Tracked<Entry, nat>, ok: bool)

  datatype State = State(current: Option<Tracked<Entry, nat>>, regs: seq<Registration>, flushes: seq<Flush>)

  datatype Event =
    | Register(jobID: string)
    | AddResult(entry: Entry)
    | Discard(jobID: string)
    | FlushTakes(jobID: string)
    | FlushSaves(flush: nat, ok: bool)
    | FlushSends(flush: nat)
    | WorkerForces(reg: nat, cause: Cause)
    | WorkerReceives(reg: nat)
    | WorkerGivesUp(reg: nat)

  /** Work's verdict on a flush result: nil is success. */
  predicate WorkSucceeds(w: Worker, result: FlushResult)
    requires !w.Returned?
  {
    result.ok &&
    match w
    case Waiting => true
    case Forcing(TimerRanOut) => result.count > 0
    case Forcing(ContextDeadline) => result.count > 0
    case Forcing(_) => false
  }

  ghost predicate Step(s: State, e: Event, t: State) {
    match e
    case Register(id) =>
      t == s.(current := Some(Tracked<Entry, nat>.Tracked(id, [], |s.regs|)), regs := s.regs + [Registration(id, [], [], None, Waiting)])
    case AddResult(entry) =>
      t == s.(current := Added(s.current, entry.jobID, entry))
    case Discard(id) =>
      t == s.(current := Released(s.current, id))
    case FlushTakes(id) =>
      t == if Tracks(s.current, id)
           then s.(current := None, flushes := s.flushes + [Taken(s.current.value)])
           else s
    case FlushSaves(f, ok) =>
      && f < |s.flushes| && s.flushes[f].Taken?
      && var job := s.flushes[f].job;
      && job.completion < |s.regs|
      && t == s.(flushes := s.flushes[f := Saved(job, ok)],
                 regs := s.regs[job.completion := s.regs[job.completion].(saves := s.regs[job.completion].saves + [Save(job.entries, ok)])])
    case FlushSends(f) =>
      && f < |s.flushes| && s.flushes[f].Saved?
      && var job := s.flushes[f].job;
      && CanSend(s, f)
      && t == s.(flushes := s.flushes[f := Sent(job, s.flushes[f].ok)],
                 regs := s.regs[job.completion := Message(s.regs[job.completion], FlushResult(|job.entries|, s.flushes[f].ok))])
    case WorkerForces(r, cause) =>
      && r < |s.regs| && s.regs[r].worker.Waiting?
      && t == s.(regs := s.regs[r := s.regs[r].(worker := Forcing(cause))])
    case WorkerReceives(r) =>
      && r < |s.regs| && !s.regs[r].worker.Returned? && s.regs[r].slot.Some?
      && t == s.(regs := s.regs[r := s.regs[r].(slot := None,
                 worker := Returned(WorkSucceeds(s.regs[r].worker, s.regs[r].slot.value)))])
    case WorkerGivesUp(r) =>
      && r < |s.regs| && s.regs[r].worker.Forcing?
      && t == s.(regs := s.regs[r := s.regs[r].(worker := Returned(false))])
  }

  /** The send would not block: the slot of the registration's channel is free. */
  ghost predicate CanSend(s: State, f: nat)
    requires f < |s.flushes|
  {
    var r := s.flushes[f].job.completion;
    r < |s.regs| && s.regs[r].slot.None?
  }

  function Message(reg: Registration, m: FlushResult): Registration {
    reg.(sent := reg.sent + [m], slot := Some(m))
  }

  ghost predicate Init(s: State) {
    s == State(None, [], [])
  }

  // ---------------------------------------------------------------------------------------------
  // The invariant
  // ---------------------------------------------------------------------------------------------

  /** A tracked job belongs to an existing registration of its own id, and so do its entries. */
  ghost predicate Owned(regs: seq<Registration>, job: Tracked<Entry, nat>) {
    && job.completion < |regs|
    && job.jobID == regs[job.completion].jobID
    && forall e :: e in job.entries ==> e.jobID == job.jobID
  }

  /** Nobody flushes the registration. */
  ghost predicate Unflushed(flushes: seq<Flush>, r: nat) {
    forall f :: 0 <= f < |flushes| ==> flushes[f].job.completion != r
  }

  /** What a flush so far did to its registration. */
  ghost predicate FlushShows(reg: Registration, f: Flush) {
    match f
    case Taken(_) => reg.saves == [] && reg.sent == []
    case Saved(job, ok) => reg.saves == [Save(job.entries, ok)] && reg.sent == []
    case Sent(job, ok) => reg.saves == [Save(job.entries, ok)] && reg.sent == [FlushResult(|job.entries|, ok)]
  }

  /** Messages in the slot or received came from `sent`, and success was judged on one of them. */
  ghost predicate ChannelHonest(reg: Registration) {
    && (reg.slot.Some? ==> reg.sent == [reg.slot.value])
    && (reg.worker == Returned(true) ==> |reg.sent| == 1 && reg.sent[0].ok)
  }

  ghost predicate CurrentIsFree(s: State) {
    s.current.Some? ==> Owned(s.regs, s.current.value) && Unflushed(s.flushes, s.current.value.completion)
  }

  ghost predicate FlushesShow(s: State) {
    forall f :: 0 <= f < |s.flushes| ==>
      Owned(s.regs, s.flushes[f].job) && FlushShows(s.regs[s.flushes[f].job.completion], s.flushes[f])
  }

  /** No registration is ever taken by two flushes. */
  ghost predicate OneFlushEach(flushes: seq<Flush>) {
    forall f, g :: 0 <= f < g < |flushes| ==> flushes[f].job.completion != flushes[g].job.completion
  }

  ghost predicate UnflushedUntouched(s: State) {
    forall r :: 0 <= r < |s.regs| && Unflushed(s.flushes, r) ==> s.regs[r].saves == [] && s.regs[r].sent == []
  }

  ghost predicate ChannelsHonest(s: State) {
    forall r :: 0 <= r < |s.regs| ==> ChannelHonest(s.regs[r])
  }

  ghost predicate Inv(s: State) {
    CurrentIsFree(s) && FlushesShow(s) && OneFlushEach(s.flushes) && UnflushedUntouched(s) && ChannelsHonest(s)
  }

  lemma CurrentKept(s: State, e: Event, t: State)
    requires CurrentIsFree(s) && FlushesShow(s) && OneFlushEach(s.flushes) && Step(s, e, t)
    ensures CurrentIsFree(t) && OneFlushEach(t.flushes)
  {
  }

  lemma ShowKept(s: State, e: Event, t: State)
    requires CurrentIsFree(s) && FlushesShow(s) && OneFlushEach(s.flushes) && UnflushedUntouched(s) && Step(s, e, t)
    ensures FlushesShow(t)
  {
  }

  lemma UntouchedKept(s: State, e: Event, t: State)
    requires FlushesShow(s) && UnflushedUntouched(s) && Step(s, e, t)
    ensures UnflushedUntouched(t)
  {
    forall r | 0 <= r < |t.regs| && Unflushed(t.flushes, r)
      ensures t.regs[r].saves == [] && t.regs[r].sent == []
    {
      if e.FlushSaves? || e.FlushSends? {
        assert t.flushes[e.flush].job.completion != r;
      }
      assert forall f :: 0 <= f < |s.flushes| ==> s.flushes[f].job.completion == t.flushes[f].job.completion;
      assert Unflushed(s.flushes, r);
    }
  }

  lemma ChannelsKept(s: State, e: Event, t: State)
    requires FlushesShow(s) && ChannelsHonest(s) && Step(s, e, t)
    ensures ChannelsHonest(t)
  {
  }

  lemma InvKept(s: State, e: Event, t: State)
    requires Inv(s) && Step(s, e, t)
    ensures Inv(t)
  {
    CurrentKept(s, e, t);
    ShowKept(s, e, t);
    UntouchedKept(s, e, t);
    ChannelsKept(s, e, t);
  }

  // ---------------------------------------------------------------------------------------------
  // Whole runs
  // ---------------------------------------------------------------------------------------------

  ghost predicate Run(states: seq<State>, events: seq<Event>) {
    && |states| == |events| + 1
    && Init(states[0])
    && forall i :: 0 <= i < |events| ==> Step(states[i], events[i], states[i + 1])
  }

  lemma {:induction false} RunInv(states: seq<State>, events: seq<Event>, i: nat)
    requires Run(states, events) && i < |states|
    ensures Inv(states[i])
  {
    if i > 0 {
      RunInv(states, events, i - 1);
      InvKept(states[i - 1], events[i - 1], states[i]);
    }
  }

  /**
   * However flushes, discards and registrations race, a registration is saved at most once, with
   * entries of its own job id only, and completed at most once, after its save.
   */
  lemma SavedAndCompletedOnce(states: seq<State>, events: seq<Event>, i: nat, r: nat)
    requires Run(states, events) && i < |states| && r < |states[i].regs|
    ensures var reg := states[i].regs[r];
      && |reg.sent| <= |reg.saves| <= 1
      && (forall e :: |reg.saves| == 1 && e in reg.saves[0].entries ==> e.jobID == reg.jobID)
      && (|reg.sent| == 1 ==> reg.sent[0] == FlushResult(|reg.saves[0].entries|, reg.saves[0].ok))
  {
    RunInv(states, events, i);
    var s := states[i];
    if !Unflushed(s.flushes, r) {
      var f :| 0 <= f < |s.flushes| && s.flushes[f].job.completion == r;
      assert FlushShows(s.regs[r], s.flushes[f]);
    }
  }

  /** A flush that has saved never blocks on its send. */
  lemma SendNeverBlocks(states: seq<State>, events: seq<Event>, i: nat, f: nat)
    requires Run(states, events) && i < |states|
    requires f < |states[i].flushes| && states[i].flushes[f].Saved?
    ensures CanSend(states[i], f)
  {
    RunInv(states, events, i);
    assert ChannelHonest(states[i].regs[states[i].flushes[f].job.completion]);
  }

  /** A worker reports success only for its own registration, saved, and successfully. */
  lemma SuccessMeansSaved(states: seq<State>, events: seq<Event>, i: nat, r: nat)
    requires Run(states, events) && i < |states| && r < |states[i].regs|
    requires states[i].regs[r].worker == Returned(true)
    ensures |states[i].regs[r].saves| == 1 && states[i].regs[r].saves[0].ok
  {
    RunInv(states, events, i);
    SavedAndCompletedOnce(states, events, i, r);
    assert ChannelHonest(states[i].regs[r]);
  }

  /**
   * What the flush of this registration has earned its worker: the save succeeded, and either the worker
   * was still waiting or a timeout or a deadline forced it and at least one entry was saved.
   */
  ghost predicate Earned(reg: Registration) {
    && |reg.saves| == 1 && reg.saves[0].ok
    && (reg.worker.Waiting?
        || (reg.worker.Forcing? && (reg.worker.cause.TimerRanOut? || reg.worker.cause.ContextDeadline?) && reg.saves[0].entries != []))
  }

  /** The worker received its result at step k of the run, having earned success. */
  ghost predicate ReceivedEarned(states: seq<State>, events: seq<Event>, k: nat, r: nat) {
    k < |events| && k < |states| && r < |states[k].regs| && events[k] == WorkerReceives(r) && Earned(states[k].regs[r])
  }

  lemma VerdictIsExact(s: State, t: State, r: nat)
    requires Inv(s) && Step(s, WorkerReceives(r), t)
    ensures t.regs[r].worker == Returned(Earned(s.regs[r])) && t.regs[r].slot.None?
  {
    assert ChannelHonest(s.regs[r]);
    if !Unflushed(s.flushes, r) {
      var f :| 0 <= f < |s.flushes| && s.flushes[f].job.completion == r;
      assert FlushShows(s.regs[r], s.flushes[f]);
    }
  }

  lemma OnlyReceivingSucceeds(s: State, e: Event, t: State, r: nat)
    requires Step(s, e, t) && r < |t.regs| && e != WorkerReceives(r)
    ensures |s.regs| <= |t.regs|
    ensures t.regs[r].worker == Returned(true) <==> r < |s.regs| && s.regs[r].worker == Returned(true)
  {
  }

  lemma {:induction false} RegistrationsStay(states: seq<State>, events: seq<Event>, k: nat, i: nat)
    requires Run(states, events) && k <= i < |states|
    ensures |states[k].regs| <= |states[i].regs|
  {
    if k < i {
      RegistrationsStay(states, events, k, i - 1);
      assert Step(states[i - 1], events[i - 1], states[i]);
    }
  }

  /**
   * In any run a worker has reported success exactly when it once received its result having earned it:
   * no race of other flushes, discards, registrations or workers makes or spoils a success.
   */
  lemma {:induction false} SuccessExactlyWhen(states: seq<State>, events: seq<Event>, i: nat, r: nat)
    requires Run(states, events) && i < |states| && r < |states[i].regs|
    ensures states[i].regs[r].worker == Returned(true) <==> exists k: nat :: k < i && ReceivedEarned(states, events, k, r)
  {
    if i > 0 {
      var s, e, t := states[i - 1], events[i - 1], states[i];
      assert Step(s, e, t);
      if r < |s.regs| {
        SuccessExactlyWhen(states, events, i - 1, r);
      } else {
        forall k: nat | k < i ensures !ReceivedEarned(states, events, k, r) {
          RegistrationsStay(states, events, k, i - 1);
        }
      }
      if e == WorkerReceives(r) {
        RunInv(states, events, i - 1);
        VerdictIsExact(s, t, r);
        assert Earned(s.regs[r]) ==> ReceivedEarned(states, events, i - 1, r);
      } else {
        OnlyReceivingSucceeds(s, e, t, r);
      }
    }
  }

  /** After a forced flush, success also takes at least one saved entry. */
  lemma ForcedSuccessSavedSomething(states: seq<State>, events: seq<Event>, i: nat, r: nat)
    requires Run(states, events) && i < |events|
    requires r < |states[i].regs| && states[i].regs[r].worker.Forcing?
    requires states[i + 1].regs[r].worker == Returned(true)
    ensures |states[i].regs[r].saves| == 1 && states[i].regs[r].saves[0].ok && states[i].regs[r].saves[0].entries != []
    ensures states[i].regs[r].worker.cause.TimerRanOut? || states[i].regs[r].worker.cause.ContextDeadline?
  {
    RunInv(states, events, i);
    SavedAndCompletedOnce(states, events, i, r);
    assert ChannelHonest(states[i].regs[r]);
    assert events[i] == WorkerReceives(r);
  }
}
