/**
 * The indexed, capped union of every review read for one place (gmaps/reviewset.go).
 *
 * The set is specified by the whole stream of reviews ever handed to it: which ids have a row, what
 * each row holds, what the inline reviews became and which id-less reviews are kept are all plain
 * functions of that stream. `ReviewSet.Valid` says the indexed fields are exactly those functions.
 */
module ReviewSets {
  import opened Common

  /** Go strings are compared and measured in bytes. */
  newtype byte = b: int | 0 <= b < 256

  type Text = seq<byte>

  /** `card` stands for every field that merging never writes: name, rating, picture, when, source. */
  datatype Review = Review(
    id: Text,
    card: Text,
    description: Text,
    authorURL: Text,
    replyText: Text,
    publishedAt: Option<int>,
    images: seq<Text>)

  const DEFAULT_REVIEW_CAP: nat := 5000

  // ---------------------------------------------------------------------------------------------
  // The specification: functions of the stream
  // ---------------------------------------------------------------------------------------------

  /** Fill what `kept` is missing from `next`. */
  function Enrich(kept: Review, next: Review): Review {
    kept.(description := if |next.description| > |kept.description| then next.description else kept.description,
          authorURL := if kept.authorURL == [] then next.authorURL else kept.authorURL,
          replyText := if kept.replyText == [] then next.replyText else kept.replyText,
          publishedAt := if kept.publishedAt.None? then next.publishedAt else kept.publishedAt,
          images := if |next.images| > |kept.images| then next.images else kept.images)
  }

  /** `base` after meeting each of `later` in turn. */
  function Fold(base: Review, later: seq<Review>): Review {
    if later == [] then base else Enrich(Fold(base, later[..|later| - 1]), later[|later| - 1])
  }

  function Occurrences(s: seq<Review>, id: Text): seq<Review> {
    if s == [] then []
    else
      var r := s[|s| - 1];
      Occurrences(s[..|s| - 1], id) + (if r.id == id then [r] else [])
  }

  /** The distinct non-empty ids of the stream that are not inline ones, in first-seen order. */
  function NewIds(inlineIds: set<Text>, s: seq<Review>): seq<Text> {
    if s == [] then []
    else
      var before := NewIds(inlineIds, s[..|s| - 1]);
      var id := s[|s| - 1].id;
      if id == [] || id in inlineIds || id in before then before else before + [id]
  }

  /** What the row of `id` holds: its first occurrence, enriched by all the later ones. */
  function RowFor(s: seq<Review>, id: Text): Review
    requires Occurrences(s, id) != []
  {
    var occ := Occurrences(s, id);
    Fold(occ[0], occ[1..])
  }

  function IdSet(s: seq<Review>): set<Text> {
    set r | r in s && r.id != [] :: r.id
  }

  function SeqSet<T>(s: seq<T>): set<T> {
    set x | x in s
  }

  /** The last inline review carrying this id: the one a re-read of it enriches. */
  ghost predicate IsLastWith(inline: seq<Review>, id: Text, i: nat) {
    && i < |inline|
    && inline[i].id == id
    && forall j :: i < j < |inline| ==> inline[j].id != id
  }

  /** What inline review i has become after the stream. */
  function InlineNow(inline: seq<Review>, ids: map<Text, nat>, s: seq<Review>, i: nat): Review
    requires i < |inline|
  {
    var r := inline[i];
    if r.id in ids && ids[r.id] == i then Fold(r, Occurrences(s, r.id)) else r
  }

  // ---------------------------------------------------------------------------------------------
  // The indexed fields against the specification
  // ---------------------------------------------------------------------------------------------

  ghost predicate InlineIndexExact(inline: seq<Review>, ids: map<Text, nat>) {
    && ids.Keys == IdSet(inline)
    && forall id :: id in ids ==> IsLastWith(inline, id, ids[id])
  }

  lemma IndexOneMore(inline: seq<Review>, ids: map<Text, nat>, r: Review)
    requires InlineIndexExact(inline, ids)
    ensures InlineIndexExact(inline + [r], if r.id == [] then ids else ids[r.id := |inline|])
  {
    IdSetConcat(inline, [r]);
    assert IdSet([r]) == if r.id == [] then {} else {r.id};
  }

  ghost predicate IndexExact(keys: seq<Text>, index: map<Text, nat>) {
    && (forall i :: 0 <= i < |keys| ==> keys[i] in index && index[keys[i]] == i)
    && (forall id :: id in index ==> index[id] < |keys| && keys[index[id]] == id)
  }

  ghost predicate RowsExact(inlineIds: set<Text>, s: seq<Review>, cap: nat, rows: seq<Review>) {
    var ids := Prefix(NewIds(inlineIds, s), cap);
    && |rows| == |ids|
    && forall i :: 0 <= i < |rows| ==> Occurrences(s, ids[i]) != [] && rows[i] == RowFor(s, ids[i])
  }

  // ---------------------------------------------------------------------------------------------
  // Facts about the specification
  // ---------------------------------------------------------------------------------------------

  lemma SnocStream(s: seq<Review>, r: Review)
    ensures (s + [r])[..|s + [r]| - 1] == s && (s + [r])[|s + [r]| - 1] == r
  {
  }

  lemma {:induction false} FoldKeepsId(base: Review, later: seq<Review>)
    ensures Fold(base, later).id == base.id && Fold(base, later).card == base.card
  {
    if later != [] {
      FoldKeepsId(base, later[..|later| - 1]);
    }
  }

  function Descriptions(s: seq<Review>): seq<Text> {
    seq(|s|, i requires 0 <= i < |s| => s[i].description)
  }

  function AuthorURLs(s: seq<Review>): seq<Text> {
    seq(|s|, i requires 0 <= i < |s| => s[i].authorURL)
  }

  function Replies(s: seq<Review>): seq<Text> {
    seq(|s|, i requires 0 <= i < |s| => s[i].replyText)
  }

  function PublishTimes(s: seq<Review>): seq<Option<int>> {
    seq(|s|, i requires 0 <= i < |s| => s[i].publishedAt)
  }

  function Pictures(s: seq<Review>): seq<seq<Text>> {
    seq(|s|, i requires 0 <= i < |s| => s[i].images)
  }

  /**
   * What meeting a review again and again leaves of it: the first of the longest descriptions and of
   * the fullest picture lists, the first link, reply and publish time that is there at all.
   */
  ghost predicate BestOf(all: seq<Review>, r: Review) {
    && FirstLongest(Descriptions(all), r.description)
    && FirstFilled(AuthorURLs(all), [], r.authorURL)
    && FirstFilled(Replies(all), [], r.replyText)
    && FirstFilled(PublishTimes(all), None, r.publishedAt)
    && FirstLongest(Pictures(all), r.images)
  }

  lemma {:induction false} FoldKeepsTheBest(base: Review, later: seq<Review>)
    ensures BestOf([base] + later, Fold(base, later))
  {
    if later == [] {
      assert [base] + later == [base];
      assert Descriptions([base])[0] == base.description && AuthorURLs([base])[0] == base.authorURL;
      assert Replies([base])[0] == base.replyText && PublishTimes([base])[0] == base.publishedAt;
      assert Pictures([base])[0] == base.images;
    } else {
      var front, next := later[..|later| - 1], later[|later| - 1];
      FoldKeepsTheBest(base, front);
      assert [base] + later == ([base] + front) + [next];
      BestOfSnoc([base] + front, Fold(base, front), next);
    }
  }

  /** The time at i is the first there is. */
  ghost predicate FirstTime(times: seq<Option<int>>, i: nat) {
    i < |times| && times[i].Some? && forall k :: 0 <= k < i ==> times[k].None?
  }

  /** The earliest of the times there are, or none when there are none. */
  ghost predicate Earliest(times: seq<Option<int>>, time: Option<int>) {
    if time.None? then forall i :: 0 <= i < |times| ==> times[i].None?
    else time in times && forall i :: 0 <= i < |times| && times[i].Some? ==> time.value <= times[i].value
  }

  /**
   * The publish time kept is the earliest exactly when no later occurrence is earlier than the first one
   * that has a time at all.
   */
  lemma EarliestTimeExactlyWhen(base: Review, later: seq<Review>)
    ensures var times := PublishTimes([base] + later);
      Earliest(times, Fold(base, later).publishedAt) <==>
      forall i: nat, j :: FirstTime(times, i) && i < j < |times| && times[j].Some? ==> times[i].value <= times[j].value
  {
    FoldKeepsTheBest(base, later);
    FirstIsEarliestExactlyWhen(PublishTimes([base] + later), Fold(base, later).publishedAt);
  }

  lemma FirstIsEarliestExactlyWhen(times: seq<Option<int>>, time: Option<int>)
    requires FirstFilled(times, None, time)
    ensures Earliest(times, time) <==>
      forall i: nat, j :: FirstTime(times, i) && i < j < |times| && times[j].Some? ==> times[i].value <= times[j].value
  {
    if time.Some? {
      var first: nat :| first < |times| && times[first] == time && forall k :: 0 <= k < first ==> times[k] == None;
      assert FirstTime(times, first);
      assert forall i: nat :: FirstTime(times, i) ==> i == first;
    }
  }

  /** Two reviews of one id, the second the earlier: the first one's time stays. */
  lemma EarlierTimeIsNotPreferred() returns (first: Review, second: Review)
    ensures first.id == second.id != [] && first.publishedAt == Some(2) && second.publishedAt == Some(1)
    ensures RowFor([first, second], first.id).publishedAt == Some(2)
    ensures !Earliest(PublishTimes([first, second]), RowFor([first, second], first.id).publishedAt)
  {
    first := Review([1], [], [], [], [], Some(2), []);
    second := first.(publishedAt := Some(1));
    OccurrencesSnoc([], first, [1]);
    OccurrencesSnoc([first], second, [1]);
    assert [] + [first] == [first] && [first] + [second] == [first, second];
    FoldSnoc(first, [], second);
    assert [first, second][1..] == [] + [second];
    assert PublishTimes([first, second])[1] == Some(1);
  }

  /** So a row is the best of every review handed over with its id. */
  lemma RowIsBestOfItsReviews(s: seq<Review>, id: Text)
    requires Occurrences(s, id) != []
    ensures BestOf(Occurrences(s, id), RowFor(s, id))
  {
    var occ := Occurrences(s, id);
    FoldKeepsTheBest(occ[0], occ[1..]);
    assert [occ[0]] + occ[1..] == occ;
  }

  lemma BestOfSnoc(all: seq<Review>, r: Review, next: Review)
    requires BestOf(all, r)
    ensures BestOf(all + [next], Enrich(r, next))
  {
    var more := all + [next];
    assert Descriptions(more) == Descriptions(all) + [next.description];
    assert AuthorURLs(more) == AuthorURLs(all) + [next.authorURL];
    assert Replies(more) == Replies(all) + [next.replyText];
    assert PublishTimes(more) == PublishTimes(all) + [next.publishedAt];
    assert Pictures(more) == Pictures(all) + [next.images];
    FirstLongestSnoc(Descriptions(all), r.description, next.description);
    FirstFilledSnoc(AuthorURLs(all), [], r.authorURL, next.authorURL);
    FirstFilledSnoc(Replies(all), [], r.replyText, next.replyText);
    FirstFilledSnoc(PublishTimes(all), None, r.publishedAt, next.publishedAt);
    FirstLongestSnoc(Pictures(all), r.images, next.images);
  }

  lemma {:induction false} OccurrencesCarryId(s: seq<Review>, id: Text)
    ensures forall r :: r in Occurrences(s, id) ==> r.id == id && r in s
    ensures Occurrences(s, id) != [] <==> exists r :: r in s && r.id == id
  {
    if s != [] {
      var t, r := s[..|s| - 1], s[|s| - 1];
      OccurrencesCarryId(t, id);
      assert s == t + [r];
      if exists x :: x in s && x.id == id {
        var x :| x in s && x.id == id;
        assert x in t || x == r;
      }
    }
  }

  lemma {:induction false} NewIdsListed(inlineIds: set<Text>, s: seq<Review>)
    ensures forall id :: id in NewIds(inlineIds, s) <==> id in IdSet(s) && id !in inlineIds
  {
    if s != [] {
      var t, r := s[..|s| - 1], s[|s| - 1];
      NewIdsListed(inlineIds, t);
      assert s == t + [r];
      IdSetConcat(t, [r]);
      assert IdSet([r]) == if r.id == [] then {} else {r.id};
    }
  }

  lemma {:induction false} NewIdsDistinct(inlineIds: set<Text>, s: seq<Review>)
    ensures forall i, j :: 0 <= i < j < |NewIds(inlineIds, s)| ==> NewIds(inlineIds, s)[i] != NewIds(inlineIds, s)[j]
  {
    if s != [] {
      NewIdsDistinct(inlineIds, s[..|s| - 1]);
    }
  }

  /** First-seen order is duplicate-free, and it lists exactly the new ids. */
  lemma NewIdsExact(inlineIds: set<Text>, s: seq<Review>)
    ensures forall i, j :: 0 <= i < j < |NewIds(inlineIds, s)| ==> NewIds(inlineIds, s)[i] != NewIds(inlineIds, s)[j]
    ensures SeqSet(NewIds(inlineIds, s)) == IdSet(s) - inlineIds
    ensures |NewIds(inlineIds, s)| == |IdSet(s) - inlineIds|
  {
    NewIdsListed(inlineIds, s);
    NewIdsDistinct(inlineIds, s);
    DistinctLength(NewIds(inlineIds, s));
    assert SeqSet(NewIds(inlineIds, s)) == IdSet(s) - inlineIds;
  }

  lemma {:induction false} DistinctLength<T>(s: seq<T>)
    requires forall i, j :: 0 <= i < j < |s| ==> s[i] != s[j]
    ensures |SeqSet(s)| == |s|
  {
    if s != [] {
      var t := s[..|s| - 1];
      DistinctLength(t);
      assert SeqSet(s) == SeqSet(t) + {s[|s| - 1]};
    }
  }

  lemma {:induction false} NewIdsMonotone(inlineIds: set<Text>, s: seq<Review>, more: seq<Review>)
    ensures |NewIds(inlineIds, s)| <= |NewIds(inlineIds, s + more)|
    ensures NewIds(inlineIds, s + more)[..|NewIds(inlineIds, s)|] == NewIds(inlineIds, s)
  {
    if more == [] {
      assert s + more == s;
    } else {
      var m := more[..|more| - 1];
      NewIdsMonotone(inlineIds, s, m);
      assert s + more == (s + m) + [more[|more| - 1]];
      SnocStream(s + m, more[|more| - 1]);
    }
  }

  lemma FoldSnoc(base: Review, later: seq<Review>, r: Review)
    ensures Fold(base, later + [r]) == Enrich(Fold(base, later), r)
  {
    SnocStream(later, r);
  }

  /** A row meets a further occurrence of its own id; every other row is untouched by it. */
  lemma RowForSnoc(s: seq<Review>, r: Review, id: Text)
    requires Occurrences(s, id) != []
    ensures Occurrences(s + [r], id) != []
    ensures RowFor(s + [r], id) == if r.id == id then Enrich(RowFor(s, id), r) else RowFor(s, id)
  {
    var occ := Occurrences(s, id);
    OccurrencesSnoc(s, r, id);
    if r.id == id {
      assert (occ + [r])[1..] == occ[1..] + [r];
      FoldSnoc(occ[0], occ[1..], r);
    }
  }

  lemma OccurrencesSnoc(s: seq<Review>, r: Review, id: Text)
    ensures Occurrences(s + [r], id) == if r.id == id then Occurrences(s, id) + [r] else Occurrences(s, id)
  {
    SnocStream(s, r);
  }

  lemma InlineNowSnoc(inline: seq<Review>, ids: map<Text, nat>, s: seq<Review>, r: Review, i: nat)
    requires i < |inline|
    requires InlineIndexExact(inline, ids)
    ensures InlineNow(inline, ids, s + [r], i) ==
      if r.id in ids && ids[r.id] == i then Enrich(InlineNow(inline, ids, s, i), r) else InlineNow(inline, ids, s, i)
  {
    OccurrencesSnoc(s, r, inline[i].id);
    FoldSnoc(inline[i], Occurrences(s, inline[i].id), r);
  }

  /** A review that starts no row leaves the list of rows as it is, but for the row of its own id. */
  lemma RowsMeetKnown(inlineIds: set<Text>, s: seq<Review>, cap: nat, rows: seq<Review>, byID: map<Text, nat>, r: Review)
    requires RowsExact(inlineIds, s, cap, rows)
    requires IndexExact(Prefix(NewIds(inlineIds, s), cap), byID)
    requires r.id == [] || r.id in inlineIds || r.id in byID || |rows| >= cap
    ensures IndexExact(Prefix(NewIds(inlineIds, s + [r]), cap), byID)
    ensures r.id in byID ==> byID[r.id] < |rows|
    ensures RowsExact(inlineIds, s + [r], cap,
      if r.id in byID then rows[byID[r.id] := Enrich(rows[byID[r.id]], r)] else rows)
  {
    var ids := Prefix(NewIds(inlineIds, s), cap);
    SnocStream(s, r);
    assert Prefix(NewIds(inlineIds, s + [r]), cap) == ids;
    forall i | 0 <= i < |rows|
      ensures Occurrences(s + [r], ids[i]) != []
      ensures RowFor(s + [r], ids[i]) ==
        if r.id in byID && byID[r.id] == i then Enrich(rows[i], r) else rows[i]
    {
      RowForSnoc(s, r, ids[i]);
    }
  }

  lemma IndexGrows(keys: seq<Text>, index: map<Text, nat>, key: Text)
    requires IndexExact(keys, index) && key !in index
    ensures IndexExact(keys + [key], index[key := |keys|])
    ensures key !in keys
  {
  }

  /** Below the cap the ids listed are all there are, and a fresh one is listed next. */
  lemma NewIdIsNext(inlineIds: set<Text>, s: seq<Review>, cap: nat, rows: seq<Review>, r: Review)
    requires RowsExact(inlineIds, s, cap, rows) && |rows| < cap
    requires r.id != [] && r.id !in inlineIds && r.id !in NewIds(inlineIds, s)
    ensures Prefix(NewIds(inlineIds, s), cap) == NewIds(inlineIds, s)
    ensures Prefix(NewIds(inlineIds, s + [r]), cap) == NewIds(inlineIds, s) + [r.id]
  {
    SnocStream(s, r);
  }

  lemma RowsGrow(inlineIds: set<Text>, s: seq<Review>, cap: nat, rows: seq<Review>, r: Review)
    requires RowsExact(inlineIds, s, cap, rows) && |rows| < cap
    requires r.id != [] && r.id !in inlineIds && r.id !in NewIds(inlineIds, s)
    ensures RowsExact(inlineIds, s + [r], cap, rows + [r])
  {
    var ids := NewIds(inlineIds, s);
    NewIdIsNext(inlineIds, s, cap, rows, r);
    FirstOccurrence(inlineIds, s, r);
    forall i | 0 <= i < |rows|
      ensures Occurrences(s + [r], ids[i]) != [] && RowFor(s + [r], ids[i]) == rows[i]
    {
      RowForSnoc(s, r, ids[i]);
    }
  }

  /** A review with a fresh id, met below the cap, starts the next row. */
  lemma RowsMeetNew(inlineIds: set<Text>, s: seq<Review>, cap: nat, rows: seq<Review>, byID: map<Text, nat>, r: Review)
    requires RowsExact(inlineIds, s, cap, rows)
    requires IndexExact(Prefix(NewIds(inlineIds, s), cap), byID)
    requires r.id != [] && r.id !in inlineIds && r.id !in byID && |rows| < cap
    ensures IndexExact(Prefix(NewIds(inlineIds, s + [r]), cap), byID[r.id := |rows|])
    ensures RowsExact(inlineIds, s + [r], cap, rows + [r])
  {
    IndexGrows(Prefix(NewIds(inlineIds, s), cap), byID, r.id);
    NewIdIsNext(inlineIds, s, cap, rows, r);
    RowsGrow(inlineIds, s, cap, rows, r);
  }

  lemma FirstOccurrence(inlineIds: set<Text>, s: seq<Review>, r: Review)
    requires r.id != [] && r.id !in inlineIds && r.id !in NewIds(inlineIds, s)
    ensures Occurrences(s + [r], r.id) == [r] && RowFor(s + [r], r.id) == r
  {
    NewIdsListed(inlineIds, s);
    OccurrencesCarryId(s, r.id);
    OccurrencesSnoc(s, r, r.id);
    assert Occurrences(s, r.id) == [];
  }

  /** Indexed ids are neither empty nor inline. */
  lemma IndexedIdsAreNew(inlineIds: set<Text>, s: seq<Review>, cap: nat, byID: map<Text, nat>)
    requires IndexExact(Prefix(NewIds(inlineIds, s), cap), byID)
    ensures forall id :: id in byID ==> id != [] && id !in inlineIds
  {
    NewIdsListed(inlineIds, s);
    forall id | id in byID ensures id != [] && id !in inlineIds {
      assert Prefix(NewIds(inlineIds, s), cap)[byID[id]] == id;
      assert id in NewIds(inlineIds, s);
    }
  }

  /** Rows carry the ids they are listed under. */
  lemma RowIds(inlineIds: set<Text>, s: seq<Review>, cap: nat, rows: seq<Review>)
    requires RowsExact(inlineIds, s, cap, rows)
    ensures forall i :: 0 <= i < |rows| ==>
      rows[i].id == NewIds(inlineIds, s)[i] && rows[i].id != [] && rows[i].id !in inlineIds
  {
    var ids := NewIds(inlineIds, s);
    NewIdsListed(inlineIds, s);
    forall i | 0 <= i < |rows|
      ensures rows[i].id == ids[i] && ids[i] != [] && ids[i] !in inlineIds
    {
      var occ := Occurrences(s, ids[i]);
      OccurrencesCarryId(s, ids[i]);
      FoldKeepsId(occ[0], occ[1..]);
      assert ids[i] in ids;
    }
  }

  lemma RowsCarryTheirIds(inlineIds: set<Text>, s: seq<Review>, cap: nat, rows: seq<Review>)
    requires RowsExact(inlineIds, s, cap, rows)
    ensures forall r :: r in rows ==> r.id != [] && r.id !in inlineIds
    ensures |IdSet(rows)| == |rows| && IdSet(rows) <= IdSet(s) - inlineIds
  {
    RowIds(inlineIds, s, cap, rows);
    var ids := NewIds(inlineIds, s)[..|rows|];
    assert IdSet(rows) == SeqSet(ids) by {
      forall x | x in SeqSet(ids) ensures x in IdSet(rows) {
        var i :| 0 <= i < |ids| && ids[i] == x;
        assert rows[i] in rows;
      }
    }
    NewIdsDistinct(inlineIds, s);
    DistinctLength(ids);
    NewIdsListed(inlineIds, s);
  }

  lemma {:induction false} NewIdsOccur(inlineIds: set<Text>, s: seq<Review>)
    ensures forall id :: id in NewIds(inlineIds, s) ==> Occurrences(s, id) != []
  {
    NewIdsListed(inlineIds, s);
    forall id | id in NewIds(inlineIds, s) ensures Occurrences(s, id) != [] {
      OccurrencesCarryId(s, id);
    }
  }

  /** The rows the stream calls for. */
  function RowsOf(inlineIds: set<Text>, s: seq<Review>, cap: nat): seq<Review> {
    NewIdsOccur(inlineIds, s);
    var ids := Prefix(NewIds(inlineIds, s), cap);
    seq(|ids|, i requires 0 <= i < |ids| => RowFor(s, ids[i]))
  }

  lemma RowsOfIsExact(inlineIds: set<Text>, s: seq<Review>, cap: nat)
    ensures RowsExact(inlineIds, s, cap, RowsOf(inlineIds, s, cap))
    ensures |RowsOf(inlineIds, s, cap)| == Min(cap, |NewIds(inlineIds, s)|)
  {
    NewIdsOccur(inlineIds, s);
  }

  lemma RowsAreDetermined(inlineIds: set<Text>, s: seq<Review>, cap: nat, rows: seq<Review>)
    requires RowsExact(inlineIds, s, cap, rows)
    ensures rows == RowsOf(inlineIds, s, cap)
  {
  }

  /** The inline ids and the rows count the union once; below the cap, of everything ever seen. */
  lemma UnionOnce(inlineIds: set<Text>, s: seq<Review>, cap: nat, rows: seq<Review>)
    requires RowsExact(inlineIds, s, cap, rows)
    ensures |inlineIds| + |rows| == |inlineIds + IdSet(rows)|
    ensures |rows| < cap ==> inlineIds + IdSet(rows) == inlineIds + IdSet(s)
  {
    RowsCarryTheirIds(inlineIds, s, cap, rows);
    assert inlineIds !! IdSet(rows);
    if |rows| < cap {
      BelowCapHoldsEverything(inlineIds, s, cap, rows);
    }
  }

  /** Below the cap nothing was refused: every id of the stream is inline or has a row. */
  lemma BelowCapHoldsEverything(inlineIds: set<Text>, s: seq<Review>, cap: nat, rows: seq<Review>)
    requires RowsExact(inlineIds, s, cap, rows)
    requires |rows| < cap || |IdSet(s) - inlineIds| <= cap
    ensures IdSet(rows) == IdSet(s) - inlineIds
  {
    NewIdsExact(inlineIds, s);
    RowIds(inlineIds, s, cap, rows);
    assert |rows| == |NewIds(inlineIds, s)|;
    forall id | id in IdSet(s) - inlineIds ensures id in IdSet(rows) {
      assert id in SeqSet(NewIds(inlineIds, s));
      var i :| 0 <= i < |rows| && NewIds(inlineIds, s)[i] == id;
      assert rows[i] in rows;
    }
    RowsCarryTheirIds(inlineIds, s, cap, rows);
  }

  /** A longer stream keeps every row. */
  lemma RowsOnlyGrow(inlineIds: set<Text>, s: seq<Review>, more: seq<Review>, cap: nat, rows: seq<Review>, later: seq<Review>)
    requires RowsExact(inlineIds, s, cap, rows)
    requires RowsExact(inlineIds, s + more, cap, later)
    ensures IdSet(rows) <= IdSet(later)
  {
    NewIdsMonotone(inlineIds, s, more);
    RowIds(inlineIds, s, cap, rows);
    RowIds(inlineIds, s + more, cap, later);
    forall id | id in IdSet(rows) ensures id in IdSet(later) {
      var i :| 0 <= i < |rows| && rows[i].id == id;
      assert later[i].id == id && later[i] in later;
    }
  }

  lemma IdSetConcat(a: seq<Review>, b: seq<Review>)
    ensures IdSet(a + b) == IdSet(a) + IdSet(b)
  {
    forall x | x in IdSet(a) + IdSet(b) ensures x in IdSet(a + b) {
      var r :| (r in a || r in b) && r.id == x && r.id != [];
      assert r in a + b;
    }
  }

  ghost predicate DistinctIds(s: seq<Review>) {
    forall i, j :: 0 <= i < j < |s| && s[i].id != [] ==> s[i].id != s[j].id
  }

  /** Only the id-less reviews of a stream. */
  function IdLess(s: seq<Review>): seq<Review> {
    if s == [] then []
    else
      var r := s[|s| - 1];
      IdLess(s[..|s| - 1]) + (if r.id == [] then [r] else [])
  }

  lemma {:induction false} IdLessMembers(s: seq<Review>)
    ensures |IdLess(s)| <= |s|
    ensures forall r :: r in IdLess(s) ==> r.id == []
  {
    if s != [] {
      IdLessMembers(s[..|s| - 1]);
    }
  }

  /** The streams this project cares about list id-bearing rows first, then id-less ones. */
  lemma {:induction false} IdLessOfRows(rows: seq<Review>, tail: seq<Review>)
    requires forall r :: r in rows ==> r.id != []
    requires forall r :: r in tail ==> r.id == []
    ensures IdLess(rows + tail) == tail
  {
    if tail != [] {
      var t, r := tail[..|tail| - 1], tail[|tail| - 1];
      IdLessOfRows(rows, t);
      assert rows + tail == (rows + t) + [r];
      SnocStream(rows + t, r);
      assert tail == t + [r];
    } else {
      assert rows + tail == rows;
      NoneIdLess(rows);
    }
  }

  lemma {:induction false} NoneIdLess(rows: seq<Review>)
    requires forall r :: r in rows ==> r.id != []
    ensures IdLess(rows) == []
  {
    if rows != [] {
      NoneIdLess(rows[..|rows| - 1]);
    }
  }

  /** The reviews of a stream that no inline review covers: those with an id, and all. */
  function NewRows(inlineIds: set<Text>, s: seq<Review>): seq<Review> {
    if s == [] then []
    else
      var r := s[|s| - 1];
      NewRows(inlineIds, s[..|s| - 1]) + (if r.id != [] && r.id !in inlineIds then [r] else [])
  }

  function Beyond(inlineIds: set<Text>, s: seq<Review>): seq<Review> {
    if s == [] then []
    else
      var r := s[|s| - 1];
      Beyond(inlineIds, s[..|s| - 1]) + (if r.id !in inlineIds then [r] else [])
  }

  /** Every new review is its own row, as it came. */
  ghost predicate AsTheyCame(inlineIds: set<Text>, s: seq<Review>) {
    var ids, rows := NewIds(inlineIds, s), NewRows(inlineIds, s);
    && |rows| == |ids|
    && forall i :: 0 <= i < |ids| ==> Occurrences(s, ids[i]) == [rows[i]]
  }

  lemma OneMoreAsItCame(inlineIds: set<Text>, s: seq<Review>, r: Review)
    requires AsTheyCame(inlineIds, s) && (r.id == [] || r.id !in IdSet(s))
    ensures AsTheyCame(inlineIds, s + [r])
  {
    var ids := NewIds(inlineIds, s);
    SnocStream(s, r);
    NewIdsListed(inlineIds, s);
    forall i | 0 <= i < |ids| ensures Occurrences(s + [r], ids[i]) == Occurrences(s, ids[i]) {
      assert ids[i] in ids && r.id != ids[i];
      OccurrencesSnoc(s, r, ids[i]);
    }
    if r.id != [] {
      OccurrencesCarryId(s, r.id);
      OccurrencesSnoc(s, r, r.id);
    }
  }

  /** In a stream without repeats nothing is merged. */
  lemma {:induction false} NoRepeatsNoChange(inlineIds: set<Text>, s: seq<Review>)
    requires DistinctIds(s)
    ensures AsTheyCame(inlineIds, s)
  {
    if s != [] {
      var t, r := s[..|s| - 1], s[|s| - 1];
      NoRepeatsNoChange(inlineIds, t);
      assert s == t + [r];
      OneMoreAsItCame(inlineIds, t, r);
    }
  }

  lemma RowsOfNoRepeats(inlineIds: set<Text>, s: seq<Review>, cap: nat, rows: seq<Review>)
    requires DistinctIds(s) && RowsExact(inlineIds, s, cap, rows) && |NewIds(inlineIds, s)| <= cap
    ensures rows == NewRows(inlineIds, s)
  {
    NoRepeatsNoChange(inlineIds, s);
  }

  /** With the id-less reviews last, what is beyond the inline ones is the new rows and then those. */
  lemma {:induction false} BeyondInOrder(inlineIds: set<Text>, s: seq<Review>, n: nat)
    requires [] !in inlineIds && forall i :: 0 <= i < |s| ==> (s[i].id != [] <==> i < n)
    ensures Beyond(inlineIds, s) == NewRows(inlineIds, s) + IdLess(s)
  {
    if s != [] {
      var t, r := s[..|s| - 1], s[|s| - 1];
      BeyondInOrder(inlineIds, t, n);
      if r.id != [] {
        NoneIdLess(t);
      }
    }
  }

  /** Every inline review that was the last with its id has met the stream's occurrences of it; no other changed. */
  ghost predicate InlineEnriched(before: seq<Review>, after: seq<Review>, s: seq<Review>) {
    && |after| == |before|
    && forall i :: 0 <= i < |after| ==> after[i] == EnrichedBy(before, i, s)
  }

  ghost function EnrichedBy(inline: seq<Review>, i: nat, s: seq<Review>): Review
    requires i < |inline|
  {
    var r := inline[i];
    if r.id != [] && IsLastWith(inline, r.id, i) then Fold(r, Occurrences(s, r.id)) else r
  }

  // ---------------------------------------------------------------------------------------------
  // What is handed on
  // ---------------------------------------------------------------------------------------------

  /** Everything held beyond the inline reviews: the rows in the order found, then the id-less. */
  function HandedOn(inlineIds: set<Text>, s: seq<Review>, cap: nat): seq<Review> {
    RowsOf(inlineIds, s, cap) + Prefix(IdLess(s), cap)
  }

  /** First n rows with an id, all different, then some without one; neither kind beyond the cap. */
  ghost predicate RowsCounted(rows: seq<Review>, n: nat, cap: nat) {
    && n <= |rows| && |IdSet(rows)| == n <= cap
    && (forall i :: 0 <= i < |rows| ==> (rows[i].id != [] <==> i < n))
    && DistinctIds(rows)
    && |IdLess(rows)| <= cap
  }

  lemma RowsFirst(rows: seq<Review>, rest: seq<Review>)
    requires forall r :: r in rows ==> r.id != []
    requires forall r :: r in rest ==> r.id == []
    requires DistinctIds(rows)
    ensures forall i :: 0 <= i < |rows + rest| ==> ((rows + rest)[i].id != [] <==> i < |rows|)
    ensures DistinctIds(rows + rest) && IdSet(rows + rest) == IdSet(rows) && IdLess(rows + rest) == rest
  {
    IdLessOfRows(rows, rest);
    IdSetConcat(rows, rest);
    assert IdSet(rest) == {};
  }

  lemma RowsDiffer(inlineIds: set<Text>, s: seq<Review>, cap: nat)
    ensures DistinctIds(RowsOf(inlineIds, s, cap))
  {
    RowsOfIsExact(inlineIds, s, cap);
    RowIds(inlineIds, s, cap, RowsOf(inlineIds, s, cap));
    NewIdsDistinct(inlineIds, s);
  }

  /** Every id-bearing row once, then the kept id-less reviews; neither kind beyond the cap. */
  lemma HandedOnIsCounted(inlineIds: set<Text>, s: seq<Review>, cap: nat)
    ensures RowsCounted(HandedOn(inlineIds, s, cap), |RowsOf(inlineIds, s, cap)|, cap)
    ensures IdSet(HandedOn(inlineIds, s, cap)) == IdSet(RowsOf(inlineIds, s, cap))
    ensures IdLess(HandedOn(inlineIds, s, cap)) == Prefix(IdLess(s), cap)
  {
    RowsDiffer(inlineIds, s, cap);
    RowsOfIsExact(inlineIds, s, cap);
    RowsCarryTheirIds(inlineIds, s, cap, RowsOf(inlineIds, s, cap));
    IdLessMembers(s);
    RowsFirst(RowsOf(inlineIds, s, cap), Prefix(IdLess(s), cap));
  }

  // ---------------------------------------------------------------------------------------------
  // One step of the set, on values
  // ---------------------------------------------------------------------------------------------

  datatype SetState = SetState(primary: seq<Review>, rows: seq<Review>, byID: map<Text, nat>, orphans: seq<Review>)

  /** The indexed fields are exactly what the stream calls for. */
  ghost predicate Exact(st: SetState, inline: seq<Review>, ids: map<Text, nat>, cap: nat, s: seq<Review>) {
    && InlineIndexExact(inline, ids)
    && |st.primary| == |inline|
    && (forall i :: 0 <= i < |inline| ==> st.primary[i] == InlineNow(inline, ids, s, i))
    && RowsExact(ids.Keys, s, cap, st.rows)
    && IndexExact(Prefix(NewIds(ids.Keys, s), cap), st.byID)
    && st.orphans == Prefix(IdLess(s), cap)
  }

  /** What handing over one review does to the fields. */
  function AddTo(st: SetState, ids: map<Text, nat>, cap: nat, r: Review): SetState
    requires r.id in ids ==> ids[r.id] < |st.primary|
    requires r.id in st.byID ==> st.byID[r.id] < |st.rows|
  {
    if r.id == [] then
      if |st.orphans| < cap then st.(orphans := st.orphans + [r]) else st
    else if r.id in ids then
      st.(primary := st.primary[ids[r.id] := Enrich(st.primary[ids[r.id]], r)])
    else if r.id in st.byID then
      st.(rows := st.rows[st.byID[r.id] := Enrich(st.rows[st.byID[r.id]], r)])
    else if |st.rows| >= cap then st
    else st.(byID := st.byID[r.id := |st.rows|], rows := st.rows + [r])
  }

  lemma AddInRange(st: SetState, inline: seq<Review>, ids: map<Text, nat>, cap: nat, s: seq<Review>, r: Review)
    requires Exact(st, inline, ids, cap, s)
    ensures r.id in ids ==> ids[r.id] < |st.primary|
    ensures r.id in st.byID ==> st.byID[r.id] < |st.rows| && r.id != [] && r.id !in ids
  {
    IndexedIdsAreNew(ids.Keys, s, cap, st.byID);
  }

  lemma AddKeepsInline(st: SetState, inline: seq<Review>, ids: map<Text, nat>, cap: nat, s: seq<Review>, r: Review)
    requires InlineIndexExact(inline, ids) && |st.primary| == |inline|
    requires forall i :: 0 <= i < |inline| ==> st.primary[i] == InlineNow(inline, ids, s, i)
    requires r.id in st.byID ==> st.byID[r.id] < |st.rows|
    ensures r.id in ids ==> ids[r.id] < |inline| && r.id != []
    ensures |AddTo(st, ids, cap, r).primary| == |inline|
    ensures forall i :: 0 <= i < |inline| ==>
      AddTo(st, ids, cap, r).primary[i] == InlineNow(inline, ids, s + [r], i)
  {
    forall i | 0 <= i < |inline| {
      InlineNowSnoc(inline, ids, s, r, i);
    }
  }

  lemma AddKeepsRows(st: SetState, ids: map<Text, nat>, cap: nat, s: seq<Review>, r: Review)
    requires RowsExact(ids.Keys, s, cap, st.rows)
    requires IndexExact(Prefix(NewIds(ids.Keys, s), cap), st.byID)
    requires r.id in ids ==> ids[r.id] < |st.primary|
    requires r.id in st.byID ==> st.byID[r.id] < |st.rows| && r.id != [] && r.id !in ids
    ensures RowsExact(ids.Keys, s + [r], cap, AddTo(st, ids, cap, r).rows)
    ensures IndexExact(Prefix(NewIds(ids.Keys, s + [r]), cap), AddTo(st, ids, cap, r).byID)
  {
    if r.id == [] || r.id in ids || r.id in st.byID || |st.rows| >= cap {
      RowsMeetKnown(ids.Keys, s, cap, st.rows, st.byID, r);
    } else {
      RowsMeetNew(ids.Keys, s, cap, st.rows, st.byID, r);
    }
  }

  lemma AddKeepsOrphans(st: SetState, ids: map<Text, nat>, cap: nat, s: seq<Review>, r: Review)
    requires st.orphans == Prefix(IdLess(s), cap)
    requires r.id in ids ==> ids[r.id] < |st.primary|
    requires r.id in st.byID ==> st.byID[r.id] < |st.rows|
    ensures AddTo(st, ids, cap, r).orphans == Prefix(IdLess(s + [r]), cap)
  {
    SnocStream(s, r);
    assert IdLess(s + [r]) == IdLess(s) + if r.id == [] then [r] else [];
  }

  lemma AddKeepsExact(st: SetState, inline: seq<Review>, ids: map<Text, nat>, cap: nat, s: seq<Review>, r: Review)
    requires Exact(st, inline, ids, cap, s)
    ensures r.id in ids ==> ids[r.id] < |st.primary|
    ensures r.id in st.byID ==> st.byID[r.id] < |st.rows|
    ensures Exact(AddTo(st, ids, cap, r), inline, ids, cap, s + [r])
  {
    AddInRange(st, inline, ids, cap, s, r);
    AddKeepsInline(st, inline, ids, cap, s, r);
    AddKeepsRows(st, ids, cap, s, r);
    AddKeepsOrphans(st, ids, cap, s, r);
  }

  /** Where each key is. */
  function Positions(keys: seq<Text>): map<Text, nat> {
    if keys == [] then map[] else Positions(keys[..|keys| - 1])[keys[|keys| - 1] := |keys| - 1]
  }

  lemma {:induction false} PositionsAreExact(keys: seq<Text>)
    requires forall i, j :: 0 <= i < j < |keys| ==> keys[i] != keys[j]
    ensures IndexExact(keys, Positions(keys))
  {
    if keys != [] {
      PositionsAreExact(keys[..|keys| - 1]);
    }
  }

  /** Where each inline id last is. */
  function InlineIndex(inline: seq<Review>): map<Text, nat> {
    if inline == [] then map[]
    else
      var front, last := inline[..|inline| - 1], inline[|inline| - 1];
      if last.id == [] then InlineIndex(front) else InlineIndex(front)[last.id := |front|]
  }

  lemma {:induction false} InlineIndexIsExact(inline: seq<Review>)
    ensures InlineIndexExact(inline, InlineIndex(inline))
  {
    if inline != [] {
      var front, last := inline[..|inline| - 1], inline[|inline| - 1];
      InlineIndexIsExact(front);
      IndexOneMore(front, InlineIndex(front), last);
      assert inline == front + [last];
    }
  }

  /** Everything the set's fields are to hold, as a function of the stream. */
  function SetFor(inline: seq<Review>, cap: nat, s: seq<Review>): SetState {
    var ids := InlineIndex(inline);
    SetState(seq(|inline|, i requires 0 <= i < |inline| => InlineNow(inline, ids, s, i)),
             RowsOf(ids.Keys, s, cap),
             Positions(Prefix(NewIds(ids.Keys, s), cap)),
             Prefix(IdLess(s), cap))
  }

  lemma SetForIsExact(inline: seq<Review>, cap: nat, s: seq<Review>)
    ensures Exact(SetFor(inline, cap, s), inline, InlineIndex(inline), cap, s)
  {
    InlineIndexIsExact(inline);
    RowsOfIsExact(InlineIndex(inline).Keys, s, cap);
    NewIdsDistinct(InlineIndex(inline).Keys, s);
    PositionsAreExact(Prefix(NewIds(InlineIndex(inline).Keys, s), cap));
  }

  lemma OneIndex(keys: seq<Text>, a: map<Text, nat>, b: map<Text, nat>)
    requires IndexExact(keys, a) && IndexExact(keys, b)
    ensures a == b
  {
    forall id ensures id in a <==> id in b {
      assert id in a ==> keys[a[id]] == id;
      assert id in b ==> keys[b[id]] == id;
    }
  }

  lemma ExactIsSetFor(st: SetState, inline: seq<Review>, cap: nat, s: seq<Review>)
    requires Exact(st, inline, InlineIndex(inline), cap, s)
    ensures st == SetFor(inline, cap, s)
  {
    var ids := InlineIndex(inline).Keys;
    SetForIsExact(inline, cap, s);
    RowsAreDetermined(ids, s, cap, st.rows);
    OneIndex(Prefix(NewIds(ids, s), cap), st.byID, SetFor(inline, cap, s).byID);
    assert st.primary == SetFor(inline, cap, s).primary;
  }

  lemma OneMore<T>(before: seq<T>, s: seq<T>, i: nat)
    requires i < |s|
    ensures (before + s[..i]) + [s[i]] == before + s[..i + 1]
  {
  }

  /** The two indexes list non-empty ids, and none in common. */
  lemma KnownIsListed(inline: seq<Review>, cap: nat, s: seq<Review>)
    ensures [] !in InlineIndex(inline)
    ensures forall id :: id in SetFor(inline, cap, s).byID ==> id != [] && id !in InlineIndex(inline)
  {
    SetForIsExact(inline, cap, s);
    IndexedIdsAreNew(InlineIndex(inline).Keys, s, cap, SetFor(inline, cap, s).byID);
  }

  lemma NothingYet(inline: seq<Review>, cap: nat)
    ensures SetFor(inline, cap, []) == SetState(inline, [], map[], [])
  {
    assert Prefix(IdLess([]), cap) == [];
  }

  /** Handing over one review takes the fields from what the stream calls for to what the longer one does. */
  lemma AddRefines(inline: seq<Review>, cap: nat, s: seq<Review>, r: Review)
    ensures var st, ids := SetFor(inline, cap, s), InlineIndex(inline);
      && (r.id in ids ==> ids[r.id] < |st.primary|)
      && (r.id in st.byID ==> st.byID[r.id] < |st.rows|)
      && AddTo(st, ids, cap, r) == SetFor(inline, cap, s + [r])
  {
    var st, ids := SetFor(inline, cap, s), InlineIndex(inline);
    SetForIsExact(inline, cap, s);
    AddKeepsExact(st, inline, ids, cap, s, r);
    ExactIsSetFor(AddTo(st, ids, cap, r), inline, cap, s + [r]);
  }

  // ---------------------------------------------------------------------------------------------
  // The set itself
  // ---------------------------------------------------------------------------------------------

  class ReviewSet {
    /** The caller's own inline reviews: enriched in place, never appended to. */
    const primary: array<Review>
    const primaryIDs: map<Text, nat>
    const cap: nat

    var rows: seq<Review>
    var byID: map<Text, nat>
    var orphans: seq<Review>

    /** The inline reviews as they were handed over, and everything added since. */
    ghost const inline: seq<Review>
    ghost var stream: seq<Review>

    ghost predicate Valid()
      reads this, primary
    {
      cap > 0 && primaryIDs == InlineIndex(inline) && State() == SetFor(inline, cap, stream)
    }

    function State(): SetState
      reads this, primary
    {
      SetState(primary[..], rows, byID, orphans)
    }

    constructor (primary: array<Review>, limit: int)
      ensures Valid() && stream == []
      ensures this.primary == primary && inline == primary[..]
      ensures cap == if limit <= 0 then 5000 else limit
    {
      this.primary := primary;
      this.cap := if limit <= 0 then DEFAULT_REVIEW_CAP else limit;
      this.inline := primary[..];
      this.stream := [];
      rows, byID, orphans := [], map[], [];

      var ids: map<Text, nat> := map[];
      for i := 0 to primary.Length
        invariant ids == InlineIndex(primary[..i])
      {
        assert primary[..i + 1][..i] == primary[..i];
        if primary[i].id != [] {
          ids := ids[primary[i].id := i];
        }
      }
      assert primary[..primary.Length] == primary[..];
      this.primaryIDs := ids;
      NothingYet(primary[..], if limit <= 0 then DEFAULT_REVIEW_CAP else limit);
    }

    /**
     * Fold one review in. True exactly when it is a new row: an id that is neither empty nor known,
     * met below the cap.
     */
    method Add(r: Review) returns (added: bool)
      requires Valid()
      modifies this, primary
      ensures Valid() && stream == old(stream) + [r]
      ensures added <==> r.id != [] && !old(Has(r.id)) && |old(rows)| < cap
      ensures |rows| == |old(rows)| + if added then 1 else 0
    {
      AddRefines(inline, cap, stream, r);
      KnownIsListed(inline, cap, stream);
      ghost var before := State();
      added := false;
      if r.id == [] {
        if |orphans| < cap {
          orphans := orphans + [r];
        }
      } else if r.id in primaryIDs {
        var j := primaryIDs[r.id];
        primary[j] := Enrich(primary[j], r);
      } else if r.id in byID {
        var i := byID[r.id];
        rows := rows[i := Enrich(rows[i], r)];
      } else if |rows| < cap {
        byID := byID[r.id := |rows|];
        rows := rows + [r];
        added := true;
      }
      assert State() == AddTo(before, primaryIDs, cap, r);
      stream := stream + [r];
    }

    /** Fold a page in; the count of new rows is exactly how far the set grew. */
    method AddPage(reviews: seq<Review>) returns (added: nat)
      requires Valid()
      modifies this, primary
      ensures Valid() && stream == old(stream) + reviews
      ensures |rows| == |old(rows)| + added
    {
      added := 0;
      for i := 0 to |reviews|
        invariant Valid() && stream == old(stream) + reviews[..i]
        invariant |rows| == |old(rows)| + added
      {
        OneMore(old(stream), reviews, i);
        var isNew := Add(reviews[i]);
        if isNew {
          added := added + 1;
        }
      }
      assert reviews[..|reviews|] == reviews;
    }

    predicate Has(id: Text)
      reads this
    {
      id != [] && (id in primaryIDs || id in byID)
    }

    /** Known is what the inline reviews or the rows carry. */
    lemma HasIsMembership(id: Text)
      requires Valid()
      ensures Has(id) <==> id in IdSet(inline) + IdSet(rows)
    {
      SetForIsExact(inline, cap, stream);
      RowIds(primaryIDs.Keys, stream, cap, rows);
      if id in byID {
        assert rows[byID[id]].id == id && rows[byID[id]] in rows;
      }
      if id in IdSet(rows) {
        var i :| 0 <= i < |rows| && rows[i].id == id;
        assert byID[id] == i;
      }
    }

    function Len(): nat
      reads this
    {
      |rows|
    }

    /** The whole union counted once. */
    function Distinct(): (n: nat)
      reads this, primary
      requires Valid()
      ensures n == |IdSet(inline) + IdSet(rows)|
      ensures |rows| < cap ==> n == |IdSet(inline) + IdSet(stream)|
      ensures inline == [] ==> n == |rows|
    {
      InlineIndexIsExact(inline);
      RowsOfIsExact(primaryIDs.Keys, stream, cap);
      UnionOnce(primaryIDs.Keys, stream, cap, rows);
      |primaryIDs| + |rows|
    }

    /** Kept reviews that carry no id, inline ones included. */
    method WithoutID() returns (n: nat)
      requires Valid()
      ensures n == |orphans| + |IdLess(inline)|
    {
      SetForIsExact(inline, cap, stream);
      n := |orphans|;
      for i := 0 to primary.Length
        invariant n == |orphans| + |IdLess(inline[..i])|
      {
        SnocStream(inline[..i], inline[i]);
        assert inline[..i + 1] == inline[..i] + [inline[i]];
        assert primary[i].id == inline[i].id by {
          FoldKeepsId(inline[i], Occurrences(stream, inline[i].id));
        }
        if primary[i].id == [] {
          n := n + 1;
        }
      }
      assert inline[..primary.Length] == inline;
    }

    /** Everything held beyond the inline reviews: the rows in the order found, then the id-less. */
    function Extended(): (rows: seq<Review>)
      reads this, primary
      requires Valid()
      ensures rows == HandedOn(primaryIDs.Keys, stream, cap)
    {
      if orphans == [] then this.rows else this.rows + orphans
    }

    /** What became of the inline reviews. */
    lemma InlineIsEnriched()
      requires Valid()
      ensures InlineEnriched(inline, primary[..], stream)
    {
      SetForIsExact(inline, cap, stream);
    }
  }
}
