/**
 * Reviews read off the page itself (gmaps/reviews.go): merging the cards of each scroll pass, counting
 * what they add to the reviews already known, and deciding when to stop scrolling.
 */
module DomReviews {
  import opened Common
  import opened ReviewSets

  /** `card` stands for the author's name and picture, the rating and the relative date. */
  datatype DomReview = DomReview(
    id: Text, hasName: bool, card: Text, authorURL: Text, text: Text, images: seq<Text>, publishedAt: Text, replyText: Text)

  const MAX_SCROLL_ATTEMPTS := 1200
  const MAX_STUCK_PASSES := 15

  /** What a card is recognised by; `digest` is the hash of the fields an id-less card has. */
  function KeyOf(digest: DomReview -> Text, r: DomReview): Text {
    if r.id != [] then r.id else digest(r)
  }

  /** A card that was met again: the longer text, the later links, the fuller pictures. */
  function Refresh(kept: DomReview, next: DomReview): DomReview {
    kept.(text := if |next.text| > |kept.text| then next.text else kept.text,
          authorURL := if next.authorURL != [] then next.authorURL else kept.authorURL,
          publishedAt := if next.publishedAt != [] then next.publishedAt else kept.publishedAt,
          replyText := if next.replyText != [] then next.replyText else kept.replyText,
          images := if |next.images| > |kept.images| then next.images else kept.images)
  }

  function RefreshAll(base: DomReview, later: seq<DomReview>): DomReview {
    if later == [] then base else Refresh(RefreshAll(base, later[..|later| - 1]), later[|later| - 1])
  }

  /** The cards with this key, in the order met. */
  function Met(digest: DomReview -> Text, cards: seq<DomReview>, key: Text): seq<DomReview> {
    if cards == [] then []
    else
      var r := cards[|cards| - 1];
      Met(digest, cards[..|cards| - 1], key) + if KeyOf(digest, r) == key then [r] else []
  }

  /** The keys in first-met order. */
  function Keys(digest: DomReview -> Text, cards: seq<DomReview>): seq<Text> {
    if cards == [] then []
    else
      var before, key := Keys(digest, cards[..|cards| - 1]), KeyOf(digest, cards[|cards| - 1]);
      if key in before then before else before + [key]
  }

  /** One row a key, in first-met order: its first card refreshed by all the later ones. */
  ghost predicate MergedExactly(digest: DomReview -> Text, cards: seq<DomReview>, rows: seq<DomReview>) {
    var keys := Keys(digest, cards);
    && |rows| == |keys|
    && forall i :: 0 <= i < |rows| ==> RowIs(digest, cards, keys[i], rows[i])
  }

  ghost predicate RowIs(digest: DomReview -> Text, cards: seq<DomReview>, key: Text, row: DomReview) {
    var met := Met(digest, cards, key);
    met != [] && row == RefreshAll(met[0], met[1..])
  }

  /** The rows these cards make. */
  function RowsFor(digest: DomReview -> Text, cards: seq<DomReview>): seq<DomReview> {
    KeysAreMet(digest, cards);
    var keys := Keys(digest, cards);
    seq(|keys|, i requires 0 <= i < |keys| => RowFor(digest, cards, keys[i]))
  }

  function RowFor(digest: DomReview -> Text, cards: seq<DomReview>, key: Text): DomReview
    requires Met(digest, cards, key) != []
  {
    var met := Met(digest, cards, key);
    RefreshAll(met[0], met[1..])
  }

  lemma KeysAreMet(digest: DomReview -> Text, cards: seq<DomReview>)
    ensures forall key :: key in Keys(digest, cards) ==> Met(digest, cards, key) != []
  {
    forall key | key in Keys(digest, cards) ensures Met(digest, cards, key) != [] {
      MetMeansListed(digest, cards, key);
    }
  }

  lemma RowsForIsMerged(digest: DomReview -> Text, cards: seq<DomReview>)
    ensures MergedExactly(digest, cards, RowsFor(digest, cards))
  {
    KeysAreMet(digest, cards);
  }

  lemma MergedIsRowsFor(digest: DomReview -> Text, cards: seq<DomReview>, rows: seq<DomReview>)
    requires MergedExactly(digest, cards, rows)
    ensures rows == RowsFor(digest, cards)
  {
    var keys := Keys(digest, cards);
    forall i | 0 <= i < |rows| ensures rows[i] == RowsFor(digest, cards)[i] {
      assert RowIs(digest, cards, keys[i], rows[i]);
    }
  }

  function Texts(cards: seq<DomReview>): seq<Text> {
    seq(|cards|, i requires 0 <= i < |cards| => cards[i].text)
  }

  function Links(cards: seq<DomReview>): seq<Text> {
    seq(|cards|, i requires 0 <= i < |cards| => cards[i].authorURL)
  }

  function Dates(cards: seq<DomReview>): seq<Text> {
    seq(|cards|, i requires 0 <= i < |cards| => cards[i].publishedAt)
  }

  function Answers(cards: seq<DomReview>): seq<Text> {
    seq(|cards|, i requires 0 <= i < |cards| => cards[i].replyText)
  }

  function Pictures(cards: seq<DomReview>): seq<seq<Text>> {
    seq(|cards|, i requires 0 <= i < |cards| => cards[i].images)
  }

  /** The first of the longest texts and of the fullest picture lists; the last link, date and reply there is. */
  ghost predicate LatestOf(cards: seq<DomReview>, r: DomReview) {
    && FirstLongest(Texts(cards), r.text)
    && LastFilled(Links(cards), [], r.authorURL)
    && LastFilled(Dates(cards), [], r.publishedAt)
    && LastFilled(Answers(cards), [], r.replyText)
    && FirstLongest(Pictures(cards), r.images)
  }

  /** Unlike the set's rows, which keep the first link, date and reply met, a merged card has the last. */
  lemma {:induction false} RefreshKeepsTheLatest(base: DomReview, later: seq<DomReview>)
    ensures LatestOf([base] + later, RefreshAll(base, later))
  {
    if later == [] {
      assert [base] + later == [base];
      assert Texts([base])[0] == base.text && Links([base])[0] == base.authorURL && Dates([base])[0] == base.publishedAt;
      assert Answers([base])[0] == base.replyText && Pictures([base])[0] == base.images;
    } else {
      var front, next := later[..|later| - 1], later[|later| - 1];
      RefreshKeepsTheLatest(base, front);
      assert [base] + later == ([base] + front) + [next];
      LatestOfSnoc([base] + front, RefreshAll(base, front), next);
    }
  }

  lemma LatestOfSnoc(cards: seq<DomReview>, r: DomReview, next: DomReview)
    requires LatestOf(cards, r)
    ensures LatestOf(cards + [next], Refresh(r, next))
  {
    var more := cards + [next];
    assert Texts(more) == Texts(cards) + [next.text];
    assert Links(more) == Links(cards) + [next.authorURL];
    assert Dates(more) == Dates(cards) + [next.publishedAt];
    assert Answers(more) == Answers(cards) + [next.replyText];
    assert Pictures(more) == Pictures(cards) + [next.images];
    FirstLongestSnoc(Texts(cards), r.text, next.text);
    LastFilledSnoc(Links(cards), [], r.authorURL, next.authorURL);
    LastFilledSnoc(Dates(cards), [], r.publishedAt, next.publishedAt);
    LastFilledSnoc(Answers(cards), [], r.replyText, next.replyText);
    FirstLongestSnoc(Pictures(cards), r.images, next.images);
  }

  lemma {:induction false} MetMeansListed(digest: DomReview -> Text, cards: seq<DomReview>, key: Text)
    ensures Met(digest, cards, key) != [] <==> key in Keys(digest, cards)
    ensures forall r :: r in Met(digest, cards, key) ==> KeyOf(digest, r) == key && r in cards
  {
    if cards != [] {
      MetMeansListed(digest, cards[..|cards| - 1], key);
    }
  }

  lemma RefreshSnoc(base: DomReview, later: seq<DomReview>, next: DomReview)
    ensures RefreshAll(base, later + [next]) == Refresh(RefreshAll(base, later), next)
  {
    assert (later + [next])[..|later|] == later;
  }

  lemma MetSnoc(digest: DomReview -> Text, cards: seq<DomReview>, key: Text, next: DomReview)
    ensures Met(digest, cards + [next], key)
      == if KeyOf(digest, next) == key then Met(digest, cards, key) + [next] else Met(digest, cards, key)
  {
    var all := cards + [next];
    assert all[..|all| - 1] == cards && all[|all| - 1] == next;
  }

  lemma RowMeets(digest: DomReview -> Text, cards: seq<DomReview>, key: Text, row: DomReview, next: DomReview)
    requires RowIs(digest, cards, key, row)
    ensures RowIs(digest, cards + [next], key, if KeyOf(digest, next) == key then Refresh(row, next) else row)
  {
    var met := Met(digest, cards, key);
    MetSnoc(digest, cards, key, next);
    if KeyOf(digest, next) == key {
      assert (met + [next])[1..] == met[1..] + [next];
      RefreshSnoc(met[0], met[1..], next);
      assert (met + [next])[1..] == met[1..] + [next];
    }
  }

  lemma MeetsKnown(digest: DomReview -> Text, cards: seq<DomReview>, rows: seq<DomReview>, index: map<Text, nat>, next: DomReview)
    requires MergedExactly(digest, cards, rows) && IndexExact(Keys(digest, cards), index)
    requires KeyOf(digest, next) in index
    ensures var i := index[KeyOf(digest, next)];
      i < |rows| && MergedExactly(digest, cards + [next], rows[i := Refresh(rows[i], next)])
    ensures Keys(digest, cards + [next]) == Keys(digest, cards)
  {
    var all, keys := cards + [next], Keys(digest, cards);
    assert all[..|cards|] == cards;
    forall k | 0 <= k < |rows|
      ensures RowIs(digest, all, keys[k], if KeyOf(digest, next) == keys[k] then Refresh(rows[k], next) else rows[k])
    {
      RowMeets(digest, cards, keys[k], rows[k], next);
    }
  }

  lemma NewKey(digest: DomReview -> Text, cards: seq<DomReview>, next: DomReview)
    requires KeyOf(digest, next) !in Keys(digest, cards)
    ensures Keys(digest, cards + [next]) == Keys(digest, cards) + [KeyOf(digest, next)]
    ensures RowIs(digest, cards + [next], KeyOf(digest, next), next)
  {
    MetMeansListed(digest, cards, KeyOf(digest, next));
    MetSnoc(digest, cards, KeyOf(digest, next), next);
    assert (cards + [next])[..|cards|] == cards;
  }

  lemma MeetsNew(digest: DomReview -> Text, cards: seq<DomReview>, rows: seq<DomReview>, next: DomReview)
    requires MergedExactly(digest, cards, rows)
    requires KeyOf(digest, next) !in Keys(digest, cards)
    ensures MergedExactly(digest, cards + [next], rows + [next])
    ensures Keys(digest, cards + [next]) == Keys(digest, cards) + [KeyOf(digest, next)]
  {
    var keys := Keys(digest, cards);
    NewKey(digest, cards, next);
    forall k | 0 <= k < |rows| ensures RowIs(digest, cards + [next], keys[k], rows[k]) {
      RowMeets(digest, cards, keys[k], rows[k], next);
    }
  }

  /** The cards taken once a pass shows `incoming`: up to `limit` keys; the first new one beyond ends the pass. */
  function Take(digest: DomReview -> Text, cards: seq<DomReview>, incoming: seq<DomReview>, limit: nat): seq<DomReview>
    decreases |incoming|
  {
    if incoming == [] then cards
    else if KeyOf(digest, incoming[0]) !in Keys(digest, cards) && |Keys(digest, cards)| >= limit then cards
    else Take(digest, cards + [incoming[0]], incoming[1..], limit)
  }

  /** Taking a pass only adds to the keys, and never one past the limit. */
  lemma {:induction false} TakeAddsKeys(digest: DomReview -> Text, cards: seq<DomReview>, incoming: seq<DomReview>, limit: nat)
    decreases |incoming|
    ensures Keys(digest, cards) <= Keys(digest, Take(digest, cards, incoming, limit))
    ensures |Keys(digest, Take(digest, cards, incoming, limit))| <= Max(|Keys(digest, cards)|, limit)
    ensures cards <= Take(digest, cards, incoming, limit)
  {
    if incoming != [] && !(KeyOf(digest, incoming[0]) !in Keys(digest, cards) && |Keys(digest, cards)| >= limit) {
      TakeAddsKeys(digest, cards + [incoming[0]], incoming[1..], limit);
      OneMoreKey(digest, cards, incoming[0]);
    }
  }

  lemma OneMoreKey(digest: DomReview -> Text, cards: seq<DomReview>, next: DomReview)
    ensures Keys(digest, cards + [next]) == if KeyOf(digest, next) in Keys(digest, cards)
      then Keys(digest, cards) else Keys(digest, cards) + [KeyOf(digest, next)]
  {
    assert (cards + [next])[..|cards|] == cards;
  }

  /**
   * A pass takes all that the page shows, unless it is full: then what follows the taken cards starts
   * with one whose key no row has.
   */
  lemma {:induction false} TakesAllItCan(digest: DomReview -> Text, cards: seq<DomReview>, incoming: seq<DomReview>, limit: nat)
    returns (taken: nat)
    decreases |incoming|
    ensures taken <= |incoming| && Take(digest, cards, incoming, limit) == cards + incoming[..taken]
    ensures taken < |incoming| ==>
      var keys := Keys(digest, cards + incoming[..taken]);
      |keys| >= limit && KeyOf(digest, incoming[taken]) !in keys
  {
    if incoming == [] || (KeyOf(digest, incoming[0]) !in Keys(digest, cards) && |Keys(digest, cards)| >= limit) {
      taken := 0;
      assert cards + incoming[..0] == cards;
    } else {
      var more := TakesAllItCan(digest, cards + [incoming[0]], incoming[1..], limit);
      taken := more + 1;
      assert (cards + [incoming[0]]) + incoming[1..][..more] == cards + incoming[..taken];
    }
  }

  /** Merge one pass of cards into the rows that the cards so far make. */
  method MergeDomReviews(digest: DomReview -> Text, rows: seq<DomReview>, incoming: seq<DomReview>, index: map<Text, nat>,
                         limit: int, ghost cards: seq<DomReview>)
    returns (merged: seq<DomReview>, index': map<Text, nat>)
    requires MergedExactly(digest, cards, rows) && IndexExact(Keys(digest, cards), index)
    ensures var all := Take(digest, cards, incoming, LimitOf(limit));
      MergedExactly(digest, all, merged) && IndexExact(Keys(digest, all), index')
  {
    merged, index' := rows, index;
    ghost var met := cards;
    assert incoming[0..] == incoming;
    for position := 0 to |incoming|
      invariant MergedExactly(digest, met, merged) && IndexExact(Keys(digest, met), index')
      invariant Take(digest, met, incoming[position..], LimitOf(limit)) == Take(digest, cards, incoming, LimitOf(limit))
    {
      var next := incoming[position];
      var key := KeyOf(digest, next);
      assert incoming[position..][0] == next && incoming[position..][1..] == incoming[position + 1..];
      if key in index' {
        MeetsKnown(digest, met, merged, index', next);
        var i := index'[key];
        merged := merged[i := Refresh(merged[i], next)];
      } else {
        if |merged| >= LimitOf(limit) {
          return;
        }
        IndexGrows(Keys(digest, met), index', key);
        MeetsNew(digest, met, merged, next);
        index' := index'[key := |merged|];
        merged := merged + [next];
      }
      met := met + [next];
    }
  }

  function LimitOf(limit: int): nat {
    if limit <= 0 then DEFAULT_REVIEW_CAP else limit
  }

  // ---------------------------------------------------------------------------------------------
  // Ids stay distinct
  // ---------------------------------------------------------------------------------------------

  function IdsOf(rows: seq<DomReview>): set<Text> {
    set r | r in rows && r.id != [] :: r.id
  }

  ghost predicate DistinctCardIds(rows: seq<DomReview>) {
    forall i, j :: 0 <= i < j < |rows| && rows[i].id != [] ==> rows[i].id != rows[j].id
  }

  lemma {:induction false} KeysDiffer(digest: DomReview -> Text, cards: seq<DomReview>)
    ensures forall i, j :: 0 <= i < j < |Keys(digest, cards)| ==> Keys(digest, cards)[i] != Keys(digest, cards)[j]
  {
    if cards != [] {
      KeysDiffer(digest, cards[..|cards| - 1]);
    }
  }

  lemma {:induction false} RefreshKeepsId(base: DomReview, later: seq<DomReview>)
    ensures RefreshAll(base, later).id == base.id
  {
    if later != [] {
      RefreshKeepsId(base, later[..|later| - 1]);
    }
  }

  lemma RowKey(digest: DomReview -> Text, cards: seq<DomReview>, key: Text, row: DomReview)
    requires RowIs(digest, cards, key, row)
    ensures row.id != [] ==> row.id == key
    ensures row.id != [] ==> exists r :: r in cards && r.id == row.id
  {
    var met := Met(digest, cards, key);
    MetMeansListed(digest, cards, key);
    RefreshKeepsId(met[0], met[1..]);
    assert met[0] in met;
  }

  /** Different ids stay different rows: no id is in two rows, whatever the digest makes of id-less cards. */
  lemma MergedIdsDiffer(digest: DomReview -> Text, cards: seq<DomReview>, rows: seq<DomReview>)
    requires MergedExactly(digest, cards, rows)
    ensures DistinctCardIds(rows)
    ensures IdsOf(rows) <= IdsOf(cards)
  {
    KeysDiffer(digest, cards);
    forall i | 0 <= i < |rows|
      ensures rows[i].id != [] ==> rows[i].id == Keys(digest, cards)[i] && exists r :: r in cards && r.id == rows[i].id
    {
      RowKey(digest, cards, Keys(digest, cards)[i], rows[i]);
    }
  }

  lemma {:induction false} EveryCardIsMet(digest: DomReview -> Text, cards: seq<DomReview>, r: DomReview)
    requires r in cards
    ensures r in Met(digest, cards, KeyOf(digest, r))
  {
    var front, last := cards[..|cards| - 1], cards[|cards| - 1];
    if r != last {
      assert r in front;
      EveryCardIsMet(digest, front, r);
    }
  }

  /** The row at i is of the id-less cards with this digest, one of them at least, and of no other. */
  ghost predicate IdlessRow(digest: DomReview -> Text, cards: seq<DomReview>, i: nat, mark: Text) {
    && i < |Keys(digest, cards)| && Keys(digest, cards)[i] == mark
    && Met(digest, cards, mark) != []
    && forall r :: r in Met(digest, cards, mark) ==> r.id == [] && digest(r) == mark
  }

  /** Cards without an id keep rows of their own, when their digests differ and are no card's id. */
  lemma IdlessCardsKeepTheirRows(digest: DomReview -> Text, cards: seq<DomReview>, a: DomReview, b: DomReview)
    requires a in cards && b in cards && a.id == b.id == [] && digest(a) != digest(b)
    requires forall r :: r in cards && r.id != [] ==> r.id != digest(a) && r.id != digest(b)
    ensures exists i: nat, j: nat :: i != j && IdlessRow(digest, cards, i, digest(a)) && IdlessRow(digest, cards, j, digest(b))
  {
    var i := IdlessHasRow(digest, cards, a);
    var j := IdlessHasRow(digest, cards, b);
    assert i != j;
  }

  lemma IdlessHasRow(digest: DomReview -> Text, cards: seq<DomReview>, r: DomReview) returns (i: nat)
    requires r in cards && r.id == [] && forall c :: c in cards && c.id != [] ==> c.id != digest(r)
    ensures IdlessRow(digest, cards, i, digest(r))
  {
    EveryCardIsMet(digest, cards, r);
    MetMeansListed(digest, cards, digest(r));
    i :| i < |Keys(digest, cards)| && Keys(digest, cards)[i] == digest(r);
  }

  /** A card with an id is in the row of that id. */
  lemma IdHasRow(digest: DomReview -> Text, cards: seq<DomReview>, r: DomReview)
    requires r in cards && r.id != []
    ensures r.id in Keys(digest, cards) && r in Met(digest, cards, r.id)
  {
    EveryCardIsMet(digest, cards, r);
    MetMeansListed(digest, cards, r.id);
  }

  // ---------------------------------------------------------------------------------------------
  // Progress against what is known
  // ---------------------------------------------------------------------------------------------

  function KnownIds(known: ReviewSet?): set<Text>
    reads known
  {
    if known == null then {} else set id | id in known.primaryIDs.Keys + known.byID.Keys && id != []
  }

  function NetNew(known: set<Text>, rows: seq<DomReview>): nat {
    if rows == [] then 0
    else
      var id := rows[|rows| - 1].id;
      NetNew(known, rows[..|rows| - 1]) + if id != [] && id !in known then 1 else 0
  }

  method NetNewAgainst(known: ReviewSet?, rows: seq<DomReview>) returns (n: nat)
    ensures n == NetNew(KnownIds(known), rows)
    ensures DistinctCardIds(rows) ==> n == |IdsOf(rows) - KnownIds(known)|
  {
    n := 0;
    for i := 0 to |rows|
      invariant n == NetNew(KnownIds(known), rows[..i])
    {
      assert rows[..i + 1][..i] == rows[..i];
      var seen := known != null && known.Has(rows[i].id);
      if rows[i].id != [] && !seen {
        n := n + 1;
      }
    }
    assert rows[..|rows|] == rows;
    if DistinctCardIds(rows) {
      NetNewCounts(KnownIds(known), rows);
    }
  }

  /** With no id twice, the count is the number of ids not known yet. */
  lemma {:induction false} NetNewCounts(known: set<Text>, rows: seq<DomReview>)
    requires DistinctCardIds(rows)
    ensures NetNew(known, rows) == |IdsOf(rows) - known|
  {
    if rows != [] {
      var front, last := rows[..|rows| - 1], rows[|rows| - 1];
      assert rows == front + [last];
      FrontIsDistinct(front, last);
      NetNewCounts(known, front);
      OneMoreCounts(known, front, last);
    }
  }

  lemma FrontIsDistinct(front: seq<DomReview>, last: DomReview)
    requires DistinctCardIds(front + [last])
    ensures DistinctCardIds(front)
  {
    var all := front + [last];
    assert forall i :: 0 <= i < |front| ==> all[i] == front[i];
  }

  lemma OneMoreCounts(known: set<Text>, front: seq<DomReview>, last: DomReview)
    requires DistinctCardIds(front + [last]) && NetNew(known, front) == |IdsOf(front) - known|
    ensures NetNew(known, front + [last]) == |IdsOf(front + [last]) - known|
  {
    NetNewSnoc(known, front, last);
    LastIsOneMore(front, last);
    if last.id != [] {
      OneMoreNew(IdsOf(front), known, last.id);
    }
  }

  lemma NetNewSnoc(known: set<Text>, front: seq<DomReview>, last: DomReview)
    ensures NetNew(known, front + [last]) == NetNew(known, front) + if last.id != [] && last.id !in known then 1 else 0
  {
    assert (front + [last])[..|front|] == front;
  }

  lemma LastIsOneMore(front: seq<DomReview>, last: DomReview)
    requires DistinctCardIds(front + [last])
    ensures IdsOf(front + [last]) == IdsOf(front) + if last.id == [] then {} else {last.id}
    ensures last.id !in IdsOf(front)
  {
    OneMoreId(front, last);
    var all := front + [last];
    forall i | 0 <= i < |front| ensures front[i].id != [] ==> front[i].id != last.id {
      assert all[i] == front[i] && all[|front|] == last;
    }
  }

  lemma OneMoreNew(ids: set<Text>, known: set<Text>, id: Text)
    requires id !in ids
    ensures id in known ==> ids + {id} - known == ids - known
    ensures id !in known ==> |ids + {id} - known| == |ids - known| + 1
  {
    if id !in known {
      assert ids + {id} - known == (ids - known) + {id};
    }
  }

  lemma OneMoreId(front: seq<DomReview>, last: DomReview)
    ensures IdsOf(front + [last]) == IdsOf(front) + if last.id == [] then {} else {last.id}
  {
    forall id | id in IdsOf(front) ensures id in IdsOf(front + [last]) {
      var r :| r in front && r.id == id && r.id != [];
      assert r in front + [last];
    }
    if last.id != [] {
      assert last in front + [last];
    }
  }

  datatype DomStop = Going | AtCap | AtTarget | Stuck

  /** Full first, then enough, then nothing new; a target of zero is none. */
  function DomShouldStop(domCount: nat, limit: int, unionCount: nat, target: int, stuckPasses: nat): (stop: DomStop)
    ensures stop.AtCap? <==> domCount >= limit
    ensures stop.AtTarget? ==> 0 < target <= unionCount
    ensures stop.Stuck? ==> stuckPasses >= MAX_STUCK_PASSES
    ensures stop.Going? ==> domCount < limit && (target <= 0 || unionCount < target) && stuckPasses < MAX_STUCK_PASSES
  {
    if domCount >= limit then AtCap
    else if target > 0 && unionCount >= target then AtTarget
    else if stuckPasses >= MAX_STUCK_PASSES then Stuck
    else Going
  }

  // ---------------------------------------------------------------------------------------------
  // From cards to reviews, and into the set
  // ---------------------------------------------------------------------------------------------

  /** A card with neither a name nor an id is dropped; `published` reads a date, or does not. */
  function Converted(rows: seq<DomReview>, published: Text -> Option<int>): seq<Review> {
    if rows == [] then []
    else
      var r := rows[|rows| - 1];
      Converted(rows[..|rows| - 1], published)
      + if r.hasName || r.id != []
        then [Review(r.id, r.card, r.text, r.authorURL, r.replyText, published(r.publishedAt), r.images)]
        else []
  }

  lemma {:induction false} ConvertedKeepsIds(rows: seq<DomReview>, published: Text -> Option<int>)
    ensures IdSet(Converted(rows, published)) == IdsOf(rows)
  {
    if rows != [] {
      var front, last := rows[..|rows| - 1], rows[|rows| - 1];
      ConvertedKeepsIds(front, published);
      assert rows == front + [last];
      OneMoreId(front, last);
      var review := Review(last.id, last.card, last.text, last.authorURL, last.replyText, published(last.publishedAt), last.images);
      IdSetConcat(Converted(front, published), if last.hasName || last.id != [] then [review] else []);
    }
  }

  /** A card with a name or an id becomes the review of what it shows, in order; any other becomes none. */
  lemma ConvertedOneMore(rows: seq<DomReview>, r: DomReview, published: Text -> Option<int>)
    ensures Converted([], published) == []
    ensures r.hasName || r.id != [] ==>
      Converted(rows + [r], published) == Converted(rows, published)
        + [Review(r.id, r.card, r.text, r.authorURL, r.replyText, published(r.publishedAt), r.images)]
    ensures !r.hasName && r.id == [] ==> Converted(rows + [r], published) == Converted(rows, published)
  {
    assert (rows + [r])[..|rows|] == rows;
  }

  lemma KnownBelowCap(known: ReviewSet)
    requires known.Valid() && |known.rows| < known.cap
    ensures KnownIds(known) == IdSet(known.inline) + IdSet(known.stream)
  {
    var ids, found := known.primaryIDs.Keys, NewIds(known.primaryIDs.Keys, known.stream);
    SetForIsExact(known.inline, known.cap, known.stream);
    KnownIsListed(known.inline, known.cap, known.stream);
    NewIdsExact(ids, known.stream);
    IndexedAre(found, known.byID);
    assert ids == IdSet(known.inline) && known.byID.Keys == IdSet(known.stream) - ids;
  }

  lemma IndexedAre(keys: seq<Text>, index: map<Text, nat>)
    requires IndexExact(keys, index)
    ensures index.Keys == SeqSet(keys)
  {
    forall id | id in index ensures id in keys {
      assert keys[index[id]] == id;
    }
  }

  /** Below the cap, what is known and the new ids of the cards together count every distinct id seen. */
  lemma UnionIsCounted(known: ReviewSet, rows: seq<DomReview>)
    requires known.Valid() && |known.rows| < known.cap && DistinctCardIds(rows)
    ensures known.Distinct() + NetNew(KnownIds(known), rows)
      == |IdSet(known.inline) + IdSet(known.stream) + IdsOf(rows)|
  {
    NetNewCounts(KnownIds(known), rows);
    KnownBelowCap(known);
    UnionCounts(IdSet(known.inline), IdSet(known.stream), IdsOf(rows));
  }

  /** And it is exactly how many more ids call for a row once the cards are folded in. */
  lemma NetNewBecomesRows(inlineIds: set<Text>, s: seq<Review>, cards: seq<DomReview>, published: Text -> Option<int>)
    requires DistinctCardIds(cards)
    ensures |NewIds(inlineIds, s + Converted(cards, published))|
      == |NewIds(inlineIds, s)| + NetNew(inlineIds + IdSet(s), cards)
  {
    var all := s + Converted(cards, published);
    NewIdsExact(inlineIds, s);
    NewIdsExact(inlineIds, all);
    ConvertedIsSeen(s, cards, published);
    NetNewCountsNewIds(inlineIds, IdSet(s), IdSet(all), cards);
  }

  lemma NetNewCountsNewIds(inlineIds: set<Text>, seen: set<Text>, all: set<Text>, cards: seq<DomReview>)
    requires DistinctCardIds(cards) && all == seen + IdsOf(cards)
    ensures |all - inlineIds| == |seen - inlineIds| + NetNew(inlineIds + seen, cards)
  {
    NetNewCounts(inlineIds + seen, cards);
    UnionCounts(inlineIds, seen, IdsOf(cards));
  }

  lemma ConvertedIsSeen(s: seq<Review>, cards: seq<DomReview>, published: Text -> Option<int>)
    ensures IdSet(s + Converted(cards, published)) == IdSet(s) + IdsOf(cards)
  {
    ConvertedKeepsIds(cards, published);
    IdSetConcat(s, Converted(cards, published));
  }

  lemma UnionCounts(inlineIds: set<Text>, seen: set<Text>, cards: set<Text>)
    ensures |inlineIds + seen| + |cards - (inlineIds + seen)| == |inlineIds + seen + cards|
    ensures |seen - inlineIds| + |cards - (inlineIds + seen)| == |(seen + cards) - inlineIds|
  {
    assert inlineIds + seen + cards == (inlineIds + seen) + (cards - (inlineIds + seen));
    assert (seen + cards) - inlineIds == (seen - inlineIds) + (cards - (inlineIds + seen));
  }

  // ---------------------------------------------------------------------------------------------
  // The scroll
  // ---------------------------------------------------------------------------------------------

  /** What the page answers: the cards each pass shows, if any, and whether time is up before it. */
  datatype Panel = Panel(digest: DomReview -> Text, shown: nat -> Option<seq<DomReview>>, late: nat -> bool)

  /** What the scroll is for: the ids known before it and their count, the target, the limit. */
  datatype Aim = Aim(known: set<Text>, distinct: nat, target: int, limit: nat)

  /** The cards taken in the first n passes. */
  function CardsAfter(p: Panel, limit: nat, n: nat): seq<DomReview> {
    if n == 0 then []
    else if p.shown(n - 1).None? then CardsAfter(p, limit, n - 1)
    else Take(p.digest, CardsAfter(p, limit, n - 1), p.shown(n - 1).value, limit)
  }

  function CountAfter(p: Panel, limit: nat, n: nat): nat {
    |Keys(p.digest, CardsAfter(p, limit, n))|
  }

  /** How many steps in a row up to the nth left the count as it was. */
  function Unmoved(count: nat -> nat, n: nat): nat {
    if n == 0 || count(n) != count(n - 1) then 0 else Unmoved(count, n - 1) + 1
  }

  /** How many passes in a row brought nothing new. */
  function StuckAfter(p: Panel, limit: nat, n: nat): nat {
    Unmoved(Counts(p, limit), n)
  }

  function Counts(p: Panel, limit: nat): nat -> nat {
    (n: nat) => CountAfter(p, limit, n)
  }

  function StopAfter(p: Panel, a: Aim, n: nat): DomStop {
    DomShouldStop(CountAfter(p, a.limit, n), a.limit, a.distinct + NetNew(a.known, RowsFor(p.digest, CardsAfter(p, a.limit, n))),
                  a.target, StuckAfter(p, a.limit, n))
  }

  datatype End = End(passes: nat, stop: DomStop)

  /** What each pass calls for. */
  function Stops(p: Panel, a: Aim): nat -> DomStop {
    (n: nat) => StopAfter(p, a, n)
  }

  /** Where a scroll ends, with n passes done that did not end it: `late` before a pass, `stops` after one. */
  function ScrollFrom(late: nat -> bool, stops: nat -> DomStop, n: nat): End
    requires n <= MAX_SCROLL_ATTEMPTS
    decreases MAX_SCROLL_ATTEMPTS - n
  {
    if n == MAX_SCROLL_ATTEMPTS || late(n) then End(n, Going)
    else if stops(n + 1).Going? then ScrollFrom(late, stops, n + 1)
    else End(n + 1, stops(n + 1))
  }

  /** Nothing before the nth pass ended the scroll. */
  ghost predicate GoesOn(late: nat -> bool, stops: nat -> DomStop, n: nat) {
    n <= 1200 && (forall k: nat :: k < n ==> !late(k)) && (forall k: nat :: 0 < k < n ==> stops(k).Going?)
  }

  /** The scroll is over after n passes, and why: that pass ended it, or time or the attempts had run out. */
  ghost predicate EndsAfter(late: nat -> bool, stops: nat -> DomStop, n: nat, stop: DomStop) {
    && GoesOn(late, stops, n)
    && stop == (if n > 0 then stops(n) else Going)
    && (stop.Going? ==> n == 1200 || late(n))
  }

  lemma {:induction false} ScrollEnds(late: nat -> bool, stops: nat -> DomStop, n: nat)
    requires GoesOn(late, stops, n) && (n > 0 ==> stops(n).Going?)
    ensures var end := ScrollFrom(late, stops, n);
      EndsAfter(late, stops, end.passes, end.stop)
    decreases MAX_SCROLL_ATTEMPTS - n
  {
    if n < MAX_SCROLL_ATTEMPTS && !late(n) && stops(n + 1).Going? {
      ScrollEnds(late, stops, n + 1);
    }
  }

  lemma EndIsEnd(late: nat -> bool, stops: nat -> DomStop, m: nat, n: nat, stop: DomStop)
    requires EndsAfter(late, stops, m, stop) && m < n
    ensures !GoesOn(late, stops, n)
  {
  }

  /** A scroll ends at its first reason to, and for that reason. */
  lemma ScrollEndsExactly(late: nat -> bool, stops: nat -> DomStop, n: nat, stop: DomStop)
    ensures EndsAfter(late, stops, n, stop) <==> ScrollFrom(late, stops, 0) == End(n, stop)
  {
    var end := ScrollFrom(late, stops, 0);
    ScrollEnds(late, stops, 0);
    if EndsAfter(late, stops, n, stop) {
      if n < end.passes {
        EndIsEnd(late, stops, n, end.passes, stop);
      } else if end.passes < n {
        EndIsEnd(late, stops, end.passes, n, end.stop);
      }
    }
  }

  lemma {:induction false} CountOnlyGrows(p: Panel, limit: nat, m: nat, n: nat)
    requires m <= n
    ensures CountAfter(p, limit, m) <= CountAfter(p, limit, n)
    ensures CountAfter(p, limit, n) <= limit
    decreases n
  {
    if n > 0 {
      CountOnlyGrows(p, limit, if m == n then m - 1 else m, n - 1);
      if p.shown(n - 1).Some? {
        TakeAddsKeys(p.digest, CardsAfter(p, limit, n - 1), p.shown(n - 1).value, limit);
      }
    }
  }

  lemma {:induction false} TakeHoldsWhatItCan(digest: DomReview -> Text, cards: seq<DomReview>, incoming: seq<DomReview>,
                                              limit: nat, r: DomReview)
    requires r in incoming && |Keys(digest, Take(digest, cards, incoming, limit))| < limit
    ensures r in Take(digest, cards, incoming, limit)
    decreases |incoming|
  {
    TakeAddsKeys(digest, cards, incoming, limit);
    TakeAddsKeys(digest, cards + [incoming[0]], incoming[1..], limit);
    if r != incoming[0] {
      assert r in incoming[1..];
      TakeHoldsWhatItCan(digest, cards + [incoming[0]], incoming[1..], limit, r);
    }
  }

  /** Below the limit no card shown by any pass is missing: each was taken, and is in the row of its key. */
  lemma {:induction false} NoShownCardIsMissing(p: Panel, limit: nat, n: nat, k: nat, r: DomReview)
    requires k < n && p.shown(k).Some? && r in p.shown(k).value && CountAfter(p, limit, n) < limit
    ensures r in CardsAfter(p, limit, n)
    ensures r in Met(p.digest, CardsAfter(p, limit, n), KeyOf(p.digest, r))
    decreases n
  {
    CountOnlyGrows(p, limit, n - 1, n);
    var before := CardsAfter(p, limit, n - 1);
    if k < n - 1 {
      NoShownCardIsMissing(p, limit, n - 1, k, r);
      if p.shown(n - 1).Some? {
        TakeAddsKeys(p.digest, before, p.shown(n - 1).value, limit);
      }
    } else {
      TakeHoldsWhatItCan(p.digest, before, p.shown(k).value, limit, r);
    }
    EveryCardIsMet(p.digest, CardsAfter(p, limit, n), r);
  }

  lemma {:induction false} UnmovedExactlyWhen(count: nat -> nat, n: nat, m: nat)
    requires forall i, j :: 0 <= i <= j <= n ==> count(i) <= count(j)
    ensures Unmoved(count, n) >= m <==> m <= n && count(n - m) == count(n)
  {
    if 0 < m <= n {
      UnmovedExactlyWhen(count, n - 1, m - 1);
    } else {
      UnmovedAtMost(count, n);
    }
  }

  lemma {:induction false} UnmovedAtMost(count: nat -> nat, n: nat)
    ensures Unmoved(count, n) <= n
  {
    if n > 0 {
      UnmovedAtMost(count, n - 1);
    }
  }

  /** The count of passes stuck means what it says: no pass of the last m brought a new card. */
  lemma StuckExactlyWhen(p: Panel, limit: nat, n: nat, m: nat)
    ensures StuckAfter(p, limit, n) >= m <==> m <= n && CountAfter(p, limit, n - m) == CountAfter(p, limit, n)
  {
    forall i, j | 0 <= i <= j <= n ensures CountAfter(p, limit, i) <= CountAfter(p, limit, j) {
      CountOnlyGrows(p, limit, i, j);
    }
    UnmovedExactlyWhen(Counts(p, limit), n, m);
  }

  /**
   * Scroll until the cards reach the limit, they and what is known reach the target, fifteen passes in
   * a row bring nothing new, or time or the attempts run out.
   */
  method ExtractReviews(p: Panel, known: ReviewSet?, target: int, limit: int)
    returns (rows: seq<DomReview>, stop: DomStop, ghost passes: nat)
    requires known != null ==> known.Valid()
    ensures End(passes, stop) == ScrollFrom(p.late, Stops(p, AimOf(known, target, LimitOf(limit))), 0)
    ensures rows == RowsFor(p.digest, CardsAfter(p, LimitOf(limit), passes))
  {
    var cap := LimitOf(limit);
    ghost var aim := AimOf(known, target, cap);
    rows, stop := [], Going;
    ghost var stops := Stops(p, aim);
    var index: map<Text, nat> := map[];
    var stuckCount := 0;
    NothingTaken(p, cap);
    passes := 0;
    for attempt := 0 to MAX_SCROLL_ATTEMPTS
      invariant passes == attempt && stop.Going?
      invariant ScrollFrom(p.late, stops, attempt) == ScrollFrom(p.late, stops, 0)
      invariant Scrolled(rows, index, stuckCount) == ScrolledAfter(p, cap, attempt) && Knows(known, aim)
    {
      if p.late(attempt) {
        return;
      }
      rows, index, stuckCount, stop := OnePass(p, known, target, cap, attempt, aim, rows, index, stuckCount);
      passes := attempt + 1;
      if !stop.Going? {
        return;
      }
    }
  }

  /** The rows the passes made, where each key's is, and how long nothing new came. */
  datatype Scrolled = Scrolled(rows: seq<DomReview>, index: map<Text, nat>, stuckCount: nat)

  function ScrolledAfter(p: Panel, limit: nat, n: nat): Scrolled {
    var cards := CardsAfter(p, limit, n);
    Scrolled(RowsFor(p.digest, cards), Positions(Keys(p.digest, cards)), StuckAfter(p, limit, n))
  }

  ghost predicate Merged(p: Panel, limit: nat, n: nat, rows: seq<DomReview>, index: map<Text, nat>) {
    var cards := CardsAfter(p, limit, n);
    rows == RowsFor(p.digest, cards) && |rows| == CountAfter(p, limit, n) && IndexExact(Keys(p.digest, cards), index)
  }

  lemma NothingTaken(p: Panel, limit: nat)
    ensures ScrolledAfter(p, limit, 0) == Scrolled([], map[], 0)
  {
  }

  lemma ScrolledIsMerged(p: Panel, limit: nat, n: nat)
    ensures var s := ScrolledAfter(p, limit, n);
      Merged(p, limit, n, s.rows, s.index) && s.stuckCount == StuckAfter(p, limit, n)
  {
    KeysDiffer(p.digest, CardsAfter(p, limit, n));
    PositionsAreExact(Keys(p.digest, CardsAfter(p, limit, n)));
    RowsForIsMerged(p.digest, CardsAfter(p, limit, n));
  }

  lemma MergedIsScrolled(p: Panel, limit: nat, n: nat, rows: seq<DomReview>, index: map<Text, nat>, stuckCount: nat)
    requires Merged(p, limit, n, rows, index) && stuckCount == StuckAfter(p, limit, n)
    ensures ScrolledAfter(p, limit, n) == Scrolled(rows, index, stuckCount)
  {
    ScrolledIsMerged(p, limit, n);
    OneIndex(Keys(p.digest, CardsAfter(p, limit, n)), index, ScrolledAfter(p, limit, n).index);
  }

  /** One pass: what it shows is merged, and what that calls for is settled. */
  method OnePass(p: Panel, known: ReviewSet?, target: int, limit: nat, n: nat, ghost aim: Aim,
                 rows: seq<DomReview>, index: map<Text, nat>, stuckCount: nat)
    returns (rows': seq<DomReview>, index': map<Text, nat>, stuckCount': nat, stop: DomStop)
    requires Knows(known, aim) && aim.target == target && aim.limit == limit > 0
    requires Scrolled(rows, index, stuckCount) == ScrolledAfter(p, limit, n)
    ensures Scrolled(rows', index', stuckCount') == ScrolledAfter(p, limit, n + 1)
    ensures stop == StopAfter(p, aim, n + 1)
  {
    rows', index', stuckCount' := ReadPass(p, rows, index, stuckCount, limit, n);
    var distinct := Union(known, rows', aim);
    PassIs(p, aim, n + 1, Scrolled(rows', index', stuckCount'), distinct);
    stop := DomShouldStop(|rows'|, limit, distinct, target, stuckCount');
  }

  lemma OneMoreScrolled(p: Panel, limit: nat, n: nat, s: Scrolled, rows: seq<DomReview>, index: map<Text, nat>)
    requires s == ScrolledAfter(p, limit, n) && Merged(p, limit, n + 1, rows, index)
    ensures Scrolled(rows, index, if |rows| == |s.rows| then s.stuckCount + 1 else 0) == ScrolledAfter(p, limit, n + 1)
  {
    ScrolledIsMerged(p, limit, n);
    OneMoreStuck(p, limit, n);
    MergedIsScrolled(p, limit, n + 1, rows, index, if |rows| == |s.rows| then s.stuckCount + 1 else 0);
  }

  lemma PassIs(p: Panel, a: Aim, n: nat, s: Scrolled, distinct: nat)
    requires s == ScrolledAfter(p, a.limit, n) && distinct == a.distinct + NetNew(a.known, s.rows)
    ensures DomShouldStop(|s.rows|, a.limit, distinct, a.target, s.stuckCount) == StopAfter(p, a, n)
  {
    ScrolledIsMerged(p, a.limit, n);
  }

  lemma OneMoreStuck(p: Panel, limit: nat, n: nat)
    ensures StuckAfter(p, limit, n + 1)
      == if CountAfter(p, limit, n + 1) == CountAfter(p, limit, n) then StuckAfter(p, limit, n) + 1 else 0
  {
  }

  /** The number the target is held against. */
  method Union(known: ReviewSet?, rows: seq<DomReview>, ghost aim: Aim) returns (n: nat)
    requires Knows(known, aim)
    ensures n == aim.distinct + NetNew(aim.known, rows)
  {
    assert aim.known == KnownIds(known);
    n := NetNewAgainst(known, rows);
    if known != null {
      n := known.Distinct() + n;
    }
  }

  /** Read what one pass shows, and count whether it is anything new. */
  method ReadPass(p: Panel, rows: seq<DomReview>, index: map<Text, nat>, stuckCount: nat, limit: nat, n: nat)
    returns (rows': seq<DomReview>, index': map<Text, nat>, stuckCount': nat)
    requires Scrolled(rows, index, stuckCount) == ScrolledAfter(p, limit, n) && limit > 0
    ensures Scrolled(rows', index', stuckCount') == ScrolledAfter(p, limit, n + 1)
  {
    rows', index' := ReadCards(p, rows, index, stuckCount, limit, n);
    stuckCount' := if |rows'| == |rows| then stuckCount + 1 else 0;
    OneMoreScrolled(p, limit, n, Scrolled(rows, index, stuckCount), rows', index');
  }

  /** Read and merge what one pass shows. */
  method ReadCards(p: Panel, rows: seq<DomReview>, index: map<Text, nat>, ghost stuckCount: nat, limit: nat, n: nat)
    returns (rows': seq<DomReview>, index': map<Text, nat>)
    requires Scrolled(rows, index, stuckCount) == ScrolledAfter(p, limit, n) && limit > 0
    ensures Merged(p, limit, n + 1, rows', index')
  {
    rows', index' := rows, index;
    ghost var cards := CardsAfter(p, limit, n);
    ScrolledIsMerged(p, limit, n);
    RowsForIsMerged(p.digest, cards);
    var shown := p.shown(n);
    if shown.Some? {
      rows', index' := MergeDomReviews(p.digest, rows, shown.value, index, limit, cards);
      MergedIsRowsFor(p.digest, CardsAfter(p, limit, n + 1), rows');
    }
  }

  /** The scroll's aim is beyond what is known. */
  ghost predicate Knows(known: ReviewSet?, a: Aim)
    reads known, if known == null then {} else {known.primary}
  {
    && (known != null ==> known.Valid())
    && (forall id :: id in a.known <==> known != null && known.Has(id))
    && a.distinct == (if known == null then 0 else known.Distinct())
  }

  /** What the scroll aims at, given what is known. */
  ghost function AimOf(known: ReviewSet?, target: int, limit: nat): Aim
    reads known, if known == null then {} else {known.primary}
    requires known != null ==> known.Valid()
  {
    Aim(KnownIds(known), if known == null then 0 else known.Distinct(), target, limit)
  }

  /**
   * What a scroll that ended brings: rows within the limit, no id twice and none the page did not show;
   * full means at the limit, enough means the union of the ids known and found reaches the target, and
   * stuck means the last fifteen passes together brought nothing new.
   */
  lemma ScrollTells(p: Panel, a: Aim, n: nat, stop: DomStop)
    requires EndsAfter(p.late, Stops(p, a), n, stop)
    ensures var cards := CardsAfter(p, a.limit, n);
      var rows := RowsFor(p.digest, cards);
      && |rows| <= a.limit && DistinctCardIds(rows) && IdsOf(rows) <= IdsOf(cards)
      && (stop.AtCap? ==> |rows| == a.limit)
      && (stop.AtTarget? ==> 0 < a.target <= a.distinct + |IdsOf(rows) - a.known|)
      && (stop.Stuck? ==> n >= 15 && CountAfter(p, a.limit, n - 15) == |rows|)
  {
    RowsTell(p.digest, CardsAfter(p, a.limit, n), a.known);
    CountOnlyGrows(p, a.limit, n, n);
    ReasonTells(p, a, n, stop, |IdsOf(RowsFor(p.digest, CardsAfter(p, a.limit, n))) - a.known|);
  }

  lemma ReasonTells(p: Panel, a: Aim, n: nat, stop: DomStop, found: nat)
    requires if n == 0 then stop.Going? else stop == StopAfter(p, a, n)
    requires NetNew(a.known, RowsFor(p.digest, CardsAfter(p, a.limit, n))) == found
    ensures stop.AtCap? ==> CountAfter(p, a.limit, n) >= a.limit
    ensures stop.AtTarget? ==> 0 < a.target <= a.distinct + found
    ensures stop.Stuck? ==> n >= MAX_STUCK_PASSES && CountAfter(p, a.limit, n - MAX_STUCK_PASSES) == CountAfter(p, a.limit, n)
  {
    StuckExactlyWhen(p, a.limit, n, MAX_STUCK_PASSES);
  }

  lemma RowsTell(digest: DomReview -> Text, cards: seq<DomReview>, known: set<Text>)
    ensures var rows := RowsFor(digest, cards);
      && |rows| == |Keys(digest, cards)| && DistinctCardIds(rows) && IdsOf(rows) <= IdsOf(cards)
      && NetNew(known, rows) == |IdsOf(rows) - known|
  {
    RowsForIsMerged(digest, cards);
    MergedIdsDiffer(digest, cards, RowsFor(digest, cards));
    NetNewCounts(known, RowsFor(digest, cards));
  }
}
