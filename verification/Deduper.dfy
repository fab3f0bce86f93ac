/**
 * The deduper behind the job feeds (deduper/hashmap.go): a set of key hashes looked up under a read
 * lock and, when the hash is missing, looked up again and added under the write lock.
 *
 * A call is two atomic steps with anything in between. The hash is any function of the key.
 */
module Dedupers {

  class Deduper {
    const hash: string -> nat
    var seen: set<nat>

    constructor (hash: string -> nat)
      ensures this.hash == hash && seen == {}
    {
      this.hash, seen := hash, {};
    }

    /** A call nothing else interrupts. */
    method AddIfNotExists(key: string) returns (added: bool)
      modifies this
      ensures seen == old(seen) + {hash(key)}
      ensures added <==> hash(key) !in old(seen)
    {
      if hash(key) in seen {
        return false;
      }
      if hash(key) in seen {
        return false;
      }
      seen := seen + {hash(key)};
      return true;
    }
  }

  // ---------------------------------------------------------------------------------------------
  // Concurrent calls
  // ---------------------------------------------------------------------------------------------

  /** How far a call has got: not looked yet, looked and missed, or returned. */
  datatype Progress = Called | Missed | Returned(added: bool)

  datatype State = State(calls: seq<Progress>, seen: set<nat>)

  /** The call's next locked region. */
  function Step(keys: seq<string>, hash: string -> nat, s: State, i: nat): State
    requires |s.calls| == |keys|
  {
    if i >= |keys| then s
    else match s.calls[i]
      case Called => s.(calls := s.calls[i := if hash(keys[i]) in s.seen then Returned(false) else Missed])
      case Missed =>
        if hash(keys[i]) in s.seen then s.(calls := s.calls[i := Returned(false)])
        else State(s.calls[i := Returned(true)], s.seen + {hash(keys[i])})
      case Returned(_) => s
  }

  /** The state after the calls took turns as the schedule says. */
  function Run(keys: seq<string>, hash: string -> nat, schedule: seq<nat>): (s: State)
    ensures |s.calls| == |keys|
  {
    if schedule == [] then State(seq(|keys|, _ => Called), {})
    else Step(keys, hash, Run(keys, hash, schedule[..|schedule| - 1]), schedule[|schedule| - 1])
  }

  predicate Won(calls: seq<Progress>, i: nat) {
    i < |calls| && calls[i] == Returned(true)
  }

  /** Every hash seen has its one winner, and a call that has returned found its hash there. */
  ghost predicate Inv(keys: seq<string>, hash: string -> nat, s: State) {
    && |s.calls| == |keys|
    && (forall i :: 0 <= i < |keys| && s.calls[i].Returned? ==> hash(keys[i]) in s.seen)
    && (forall h :: h in s.seen ==> exists w :: 0 <= w < |keys| && Won(s.calls, w) && hash(keys[w]) == h)
    && (forall v, w :: 0 <= v < w < |keys| && Won(s.calls, v) && Won(s.calls, w) ==> hash(keys[v]) != hash(keys[w]))
  }

  lemma StepKeepsInv(keys: seq<string>, hash: string -> nat, s: State, i: nat)
    requires Inv(keys, hash, s)
    ensures Inv(keys, hash, Step(keys, hash, s, i))
  {
    var t := Step(keys, hash, s, i);
    forall h | h in t.seen ensures exists w :: 0 <= w < |keys| && Won(t.calls, w) && hash(keys[w]) == h {
      if h in s.seen {
        var w :| 0 <= w < |keys| && Won(s.calls, w) && hash(keys[w]) == h;
        assert Won(t.calls, w);
      } else {
        assert Won(t.calls, i);
      }
    }
    forall w | 0 <= w < |keys| && w != i && Won(t.calls, w) ensures Won(s.calls, w) {
    }
  }

  lemma {:induction false} RunKeepsInv(keys: seq<string>, hash: string -> nat, schedule: seq<nat>)
    ensures Inv(keys, hash, Run(keys, hash, schedule))
  {
    if schedule != [] {
      RunKeepsInv(keys, hash, schedule[..|schedule| - 1]);
      StepKeepsInv(keys, hash, Run(keys, hash, schedule[..|schedule| - 1]), schedule[|schedule| - 1]);
    }
  }

  /** However the calls interleave: once any call for a hash has returned, exactly one has returned true. */
  lemma OneCallPerHashAdds(keys: seq<string>, hash: string -> nat, schedule: seq<nat>, i: nat)
    requires i < |keys| && Run(keys, hash, schedule).calls[i].Returned?
    ensures var calls := Run(keys, hash, schedule).calls;
      exists w :: 0 <= w < |keys| && Won(calls, w) && hash(keys[w]) == hash(keys[i])
        && forall v :: 0 <= v < |keys| && Won(calls, v) && hash(keys[v]) == hash(keys[i]) ==> v == w
  {
    RunKeepsInv(keys, hash, schedule);
  }

  /** Some call for the i-th key returned true. */
  ghost predicate Added(keys: seq<string>, calls: seq<Progress>, i: nat)
    requires i < |keys|
  {
    exists w :: 0 <= w < |keys| && Won(calls, w) && keys[w] == keys[i]
  }

  predicate Collide(keys: seq<string>, hash: string -> nat, i: nat, j: nat) {
    i < |keys| && j < |keys| && hash(keys[i]) == hash(keys[j]) && keys[i] != keys[j]
  }

  /**
   * Every key gets its one true answer exactly when no two of the keys share a hash: of two that do,
   * one is taken for a duplicate of the other.
   */
  lemma EveryKeyIsAddedUnlessHashesCollide(keys: seq<string>, hash: string -> nat, schedule: seq<nat>)
    requires forall i :: 0 <= i < |keys| ==> Run(keys, hash, schedule).calls[i].Returned?
    ensures (forall i :: 0 <= i < |keys| ==> Added(keys, Run(keys, hash, schedule).calls, i))
      <==> (forall i, j :: 0 <= i < |keys| && 0 <= j < |keys| ==> !Collide(keys, hash, i, j))
  {
    var calls := Run(keys, hash, schedule).calls;
    RunKeepsInv(keys, hash, schedule);
    if i :| 0 <= i < |keys| && !Added(keys, calls, i) {
      OneCallPerHashAdds(keys, hash, schedule, i);
      var w :| 0 <= w < |keys| && Won(calls, w) && hash(keys[w]) == hash(keys[i]);
      assert Collide(keys, hash, w, i);
    } else {
      forall i, j | 0 <= i < |keys| && 0 <= j < |keys| ensures !Collide(keys, hash, i, j) {
        assert Added(keys, calls, i) && Added(keys, calls, j);
      }
    }
  }
}
