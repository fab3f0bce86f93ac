/** The writer that buffers one job's entries and saves them once (scraper/centralwriter.go). */
module CentralWriters {
  import opened Common

  datatype FlushResult = FlushResult(count: nat, ok: bool)

  /** The one job being tracked: its entries so far and where its completion is to be sent. */
  datatype Tracked<+E, +C> = Tracked(jobID: string, entries: seq<E>, completion: C)

  predicate Tracks<E, C>(current: Option<Tracked<E, C>>, jobID: string) {
    current.Some? && current.value.jobID == jobID
  }

  /** AddResult: an entry of another job, or with nothing tracked, is dropped. */
  function Added<E, C>(current: Option<Tracked<E, C>>, jobID: string, entry: E): Option<Tracked<E, C>> {
    if Tracks(current, jobID)
    then Some(current.value.(entries := current.value.entries + [entry]))
    else current
  }

  /** What Discard, and the locked half of Flush, leave tracked. */
  function Released<E, C>(current: Option<Tracked<E, C>>, jobID: string): Option<Tracked<E, C>> {
    if Tracks(current, jobID) then None else current
  }

  /** A one-slot channel. */
  class Completion {
    var slot: Option<FlushResult>

    constructor ()
      ensures slot == None
    {
      slot := None;
    }
  }

  class CentralWriter<E(==)> {
    var current: Option<Tracked<E, Completion>>
    /** Every batch of entries handed to the save function, with what came of it. */
    ghost var saves: seq<(string, seq<E>, bool)>

    /** Whatever is tracked has not been completed yet. */
    ghost predicate Valid()
      reads this, if current.Some? then {current.value.completion} else {}
    {
      current.Some? ==> current.value.completion.slot.None?
    }

    constructor ()
      ensures Valid() && current == None && saves == []
    {
      current, saves := None, [];
    }

    method RegisterJob(jobID: string) returns (completion: Completion)
      modifies this`current
      ensures Valid() && fresh(completion)
      ensures current == Some(Tracked(jobID, [], completion))
    {
      completion := new Completion();
      current := Some(Tracked(jobID, [], completion));
    }

    method AddResult(jobID: string, entry: E)
      requires Valid()
      modifies this`current
      ensures Valid() && current == Added(old(current), jobID, entry)
    {
      if current.Some? && current.value.jobID == jobID {
        current := Some(current.value.(entries := current.value.entries + [entry]));
      }
    }

    method Discard(jobID: string)
      requires Valid()
      modifies this`current
      ensures Valid() && current == Released(old(current), jobID)
    {
      if current.Some? && current.value.jobID == jobID {
        current := None;
      }
    }

    /** The locked half of Flush: the first caller for a job takes it, any later one finds nothing. */
    method Take(jobID: string) returns (taken: Option<Tracked<E, Completion>>)
      requires Valid()
      modifies this`current
      ensures Valid() && current == Released(old(current), jobID)
      ensures taken == if Tracks(old(current), jobID) then old(current) else None
      ensures taken.Some? ==> current.None? && taken.value.completion.slot.None?
    {
      if current.None? || current.value.jobID != jobID {
        return None;
      }
      taken := current;
      current := None;
    }

    /** Save what was tracked for the job and complete it, once. */
    method Flush(jobID: string)
      requires Valid()
      modifies this, if current.Some? then {current.value.completion} else {}
      ensures Valid() && current == Released(old(current), jobID)
      ensures !old(Tracks(current, jobID)) ==> saves == old(saves)
      ensures old(Tracks(current, jobID)) ==> exists ok ::
        && saves == old(saves) + [(jobID, old(current.value.entries), ok)]
        && old(current.value.completion).slot == Some(FlushResult(|old(current.value.entries)|, ok))
    {
      var taken := Take(jobID);
      if taken.Some? {
        var ok: bool := *;
        saves := saves + [(jobID, taken.value.entries, ok)];
        taken.value.completion.slot := Some(FlushResult(|taken.value.entries|, ok));
      }
    }
  }
}
