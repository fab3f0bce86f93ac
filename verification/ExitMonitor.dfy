/** The completion detector (exiter/exiter.go): four counters under a lock and a one-slot signal. */
module ExitMonitor {

  datatype Counts = Counts(seedCount: int, seedCompleted: int, placesFound: int, placesCompleted: int) {
    predicate AllCounted() {
      seedCompleted >= seedCount && placesCompleted >= placesFound
    }
  }

  class Exiter {
    var seedCount: int
    var seedCompleted: int
    var placesFound: int
    var placesCompleted: int
    /** The signal channel holds a message. */
    var signalled: bool

    constructor ()
      ensures View() == Counts(0, 0, 0, 0) && !signalled
    {
      seedCount, seedCompleted, placesFound, placesCompleted, signalled := 0, 0, 0, 0, false;
    }

    function View(): Counts
      reads this
    {
      Counts(seedCount, seedCompleted, placesFound, placesCompleted)
    }

    method SetSeedCount(val: int)
      modifies this`seedCount
      ensures View() == old(View()).(seedCount := val)
    {
      seedCount := val;
    }

    /** The locked half of IncrSeedCompleted: count, and judge whether that was the last. */
    method CountSeeds(val: int) returns (done: bool)
      modifies this`seedCompleted
      ensures View() == old(View()).(seedCompleted := old(seedCompleted) + val)
      ensures done == View().AllCounted()
    {
      seedCompleted := seedCompleted + val;
      done := seedCompleted >= seedCount && placesCompleted >= placesFound;
    }

    /** The locked half of IncrPlacesCompleted. */
    method CountPlaces(val: int) returns (done: bool)
      modifies this`placesCompleted
      ensures View() == old(View()).(placesCompleted := old(placesCompleted) + val)
      ensures done == View().AllCounted()
    {
      placesCompleted := placesCompleted + val;
      done := seedCompleted >= seedCount && placesCompleted >= placesFound;
    }

    method IncrPlacesFound(val: int)
      modifies this`placesFound
      ensures View() == old(View()).(placesFound := old(placesFound) + val)
    {
      placesFound := placesFound + val;
    }

    /** The unlocked half: a send that gives up when the slot is taken. */
    method Signal(done: bool)
      modifies this`signalled
      ensures signalled == (old(signalled) || done)
    {
      if done {
        signalled := true;
      }
    }

    method IncrSeedCompleted(val: int)
      modifies this`seedCompleted, this`signalled
      ensures View() == old(View()).(seedCompleted := old(seedCompleted) + val)
      ensures signalled == (old(signalled) || View().AllCounted())
    {
      var done := CountSeeds(val);
      Signal(done);
    }

    method IncrPlacesCompleted(val: int)
      modifies this`placesCompleted, this`signalled
      ensures View() == old(View()).(placesCompleted := old(placesCompleted) + val)
      ensures signalled == (old(signalled) || View().AllCounted())
    {
      var done := CountPlaces(val);
      Signal(done);
    }
  }
}
