/**
 * The operator's lead list (web/leads/store.go, web/leads/ingest.go): a finished job's rows are folded
 * in one transaction, each refreshing the lead with its source and source id.
 *
 * A lead's row id stands for its source and source id, which are unique, so the model uses those.
 */
module Leads {
  import opened Common

  datatype Key = Key(source: string, sourceId: string)

  const GOOGLE_MAPS := "google_maps"

  /** What one row of a job's results says about a business. */
  datatype Listing = Listing(
    key: Key, name: string, category: string, phone: string, emails: string, website: string, address: string,
    city: string, state: string, country: string, rating: real, reviews: int, link: string, query: string)

  /** A stored lead: the listing as last refreshed, and what belongs to the operator. */
  datatype Lead = Lead(listing: Listing, status: string, note: string, firstSeen: int, lastSeen: int)

  datatype Ingested = Ingested(rows: nat, at: int)

  datatype Tables = Tables(leads: map<Key, Lead>, found: set<(Key, string)>, ingested: map<string, Ingested>)

  function Refreshed(shown: string, kept: string): string {
    if shown != "" then shown else kept
  }

  /** The row a conflicting insert leaves behind. */
  function Merge(kept: Listing, l: Listing): Listing {
    Listing(
      kept.key,
      l.name,
      Refreshed(l.category, kept.category),
      Refreshed(l.phone, kept.phone),
      Refreshed(l.emails, kept.emails),
      Refreshed(l.website, kept.website),
      Refreshed(l.address, kept.address),
      Refreshed(l.city, kept.city),
      Refreshed(l.state, kept.state),
      Refreshed(l.country, kept.country),
      if l.rating > 0.0 then l.rating else kept.rating,
      if l.reviews > 0 then l.reviews else kept.reviews,
      Refreshed(l.link, kept.link),
      Refreshed(l.query, kept.query))
  }

  /** Insert the lead or refresh the one there is, and note the job that found it. */
  function Upsert(t: Tables, l: Listing, job: string, now: int): Tables {
    var lead :=
      if l.key in t.leads
      then t.leads[l.key].(listing := Merge(t.leads[l.key].listing, l), lastSeen := now)
      else Lead(l, "new", "", now, now);
    t.(leads := t.leads[l.key := lead], found := t.found + {(l.key, job)})
  }

  function UpsertAll(t: Tables, rows: seq<Listing>, job: string, now: int): Tables {
    if rows == [] then t
    else Upsert(UpsertAll(t, rows[..|rows| - 1], job, now), rows[|rows| - 1], job, now)
  }

  function Ingest(t: Tables, rows: seq<Listing>, job: string, now: int): Tables {
    UpsertAll(t, rows, job, now).(ingested := t.ingested[job := Ingested(|rows|, now)])
  }

  /** One record of a job's file: cut off or whole, the id its place goes by if any, and what it shows. */
  datatype Record = Record(whole: bool, placeId: string, shown: Listing)

  /** A business without a place id goes by its link. */
  function ListingOf(r: Record): Listing {
    r.shown.(key := Key(GOOGLE_MAPS, if r.placeId != "" then r.placeId else r.shown.link))
  }

  /** The businesses of a file: whole records with a name and an id. */
  function Listings(records: seq<Record>): seq<Listing> {
    if records == [] then []
    else
      var before, r := Listings(records[..|records| - 1]), records[|records| - 1];
      if r.whole && r.shown.name != "" && ListingOf(r).key.sourceId != "" then before + [ListingOf(r)] else before
  }

  lemma {:induction false} ListingsAreNamed(records: seq<Record>)
    ensures forall l :: l in Listings(records) ==> l.name != "" && l.key.source == GOOGLE_MAPS && l.key.sourceId != ""
  {
    if records != [] {
      ListingsAreNamed(records[..|records| - 1]);
    }
  }

  /** Every whole record with a name and a place id or a link is listed, under the one or else the other, in order. */
  lemma ListingsAreAll(records: seq<Record>, r: Record)
    ensures Listings([]) == []
    ensures r.whole && r.shown.name != "" && r.placeId != "" ==>
      Listings(records + [r]) == Listings(records) + [r.shown.(key := Key("google_maps", r.placeId))]
    ensures r.whole && r.shown.name != "" && r.placeId == "" && r.shown.link != "" ==>
      Listings(records + [r]) == Listings(records) + [r.shown.(key := Key("google_maps", r.shown.link))]
    ensures !r.whole || r.shown.name == "" || (r.placeId == "" && r.shown.link == "") ==>
      Listings(records + [r]) == Listings(records)
  {
    assert (records + [r])[..|records|] == records;
  }

  method ParseMapsCSV(records: seq<Record>) returns (rows: seq<Listing>)
    ensures rows == Listings(records)
  {
    rows := [];
    for i := 0 to |records|
      invariant rows == Listings(records[..i])
    {
      assert records[..i + 1][..i] == records[..i];
      var l := ListingOf(records[i]);
      if !records[i].whole || l.name == "" || l.key.sourceId == "" {
        continue;
      }
      rows := rows + [l];
    }
    assert records[..|records|] == records;
  }

  class LeadStore {
    var tables: Tables

    constructor ()
      ensures tables == Tables(map[], {}, map[])
    {
      tables := Tables(map[], {}, map[]);
    }

    /** All of the file's businesses in one transaction, or, when anything fails, none of them. */
    method IngestCSV(job: string, read: Result<seq<Record>, string>, now: int) returns (r: Result<nat, string>)
      modifies this
      ensures read.Err? ==> r == Err(read.error)
      ensures r.Ok? ==> r.value == |Listings(read.value)| && tables == Ingest(old(tables), Listings(read.value), job, now)
      ensures r.Err? ==> tables == old(tables)
    {
      if read.Err? {
        return Err(read.error);
      }
      var rows := ParseMapsCSV(read.value);
      var tx := tables;
      var i := 0;
      while i < |rows|
        invariant i <= |rows|
        invariant tx == UpsertAll(tables, rows[..i], job, now)
      {
        var failed: bool := *;
        if failed {
          return Err("lead");
        }
        assert rows[..i + 1][..i] == rows[..i];
        tx := Upsert(tx, rows[i], job, now);
        i := i + 1;
      }
      assert rows[..i] == rows;
      LeavesIngested(tables, rows, job, now);
      tx := tx.(ingested := tx.ingested[job := Ingested(|rows|, now)]);
      var committed: bool := *;
      if !committed {
        return Err("commit");
      }
      tables := tx;
      return Ok(|rows|);
    }
  }

  lemma {:induction false} LeavesIngested(t: Tables, rows: seq<Listing>, job: string, now: int)
    ensures UpsertAll(t, rows, job, now).ingested == t.ingested
  {
    if rows != [] {
      LeavesIngested(t, rows[..|rows| - 1], job, now);
    }
  }

  // ---------------------------------------------------------------------------------------------
  // Every field is the last thing said about it
  // ---------------------------------------------------------------------------------------------

  datatype Field =
    | Name | Category | Phone | Emails | Website | Address | City | State | Country | Rating | Reviews | Link | Query

  datatype Value = Text(text: string) | Real(number: real) | Whole(whole: int)

  function Get(l: Listing, f: Field): Value {
    match f
    case Name => Text(l.name)
    case Category => Text(l.category)
    case Phone => Text(l.phone)
    case Emails => Text(l.emails)
    case Website => Text(l.website)
    case Address => Text(l.address)
    case City => Text(l.city)
    case State => Text(l.state)
    case Country => Text(l.country)
    case Rating => Real(l.rating)
    case Reviews => Whole(l.reviews)
    case Link => Text(l.link)
    case Query => Text(l.query)
  }

  /** A text that is not blank, a number above zero. */
  predicate Shown(l: Listing, f: Field) {
    match Get(l, f)
    case Text(text) => text != ""
    case Real(r) => r > 0.0
    case Whole(n) => n > 0
  }

  /** What a row says of a business: its name whatever it is, anything else that it shows. */
  predicate Says(l: Listing, f: Field) {
    f.Name? || Shown(l, f)
  }

  lemma FieldsMakeTheListing(a: Listing, b: Listing)
    requires a.key == b.key && forall f :: Get(a, f) == Get(b, f)
    ensures a == b
  {
    assert Get(a, Name) == Get(b, Name) && Get(a, Category) == Get(b, Category) && Get(a, Phone) == Get(b, Phone);
    assert Get(a, Emails) == Get(b, Emails) && Get(a, Website) == Get(b, Website) && Get(a, Address) == Get(b, Address);
    assert Get(a, City) == Get(b, City) && Get(a, State) == Get(b, State) && Get(a, Country) == Get(b, Country);
    assert Get(a, Rating) == Get(b, Rating) && Get(a, Reviews) == Get(b, Reviews);
    assert Get(a, Link) == Get(b, Link) && Get(a, Query) == Get(b, Query);
  }

  lemma MergeByField(kept: Listing, l: Listing, f: Field)
    ensures Get(Merge(kept, l), f) == if Says(l, f) then Get(l, f) else Get(kept, f)
  {
  }

  /** Where the rows last say something about a field of the key's business; |rows| if they never do. */
  function LastSaid(rows: seq<Listing>, key: Key, f: Field): (i: nat)
    ensures i <= |rows|
    ensures i < |rows| ==> rows[i].key == key && Says(rows[i], f)
    ensures i < |rows| ==> forall j :: i < j < |rows| && rows[j].key == key ==> !Says(rows[j], f)
    ensures i == |rows| ==> forall j :: 0 <= j < |rows| && rows[j].key == key ==> !Says(rows[j], f)
  {
    if rows == [] then 0
    else
      var n := |rows| - 1;
      if rows[n].key == key && Says(rows[n], f) then n
      else
        var i := LastSaid(rows[..n], key, f);
        if i == n then |rows| else i
  }

  /** Where the key's business is first mentioned; |rows| if it is not. */
  function FirstOf(rows: seq<Listing>, key: Key): (i: nat)
    ensures i <= |rows|
    ensures i < |rows| ==> rows[i].key == key
    ensures forall j :: 0 <= j < i ==> rows[j].key != key
  {
    if rows == [] || rows[0].key == key then 0 else 1 + FirstOf(rows[1..], key)
  }

  /** The listing a field is read from after the rows are folded in. */
  function Source(t: Tables, rows: seq<Listing>, key: Key, f: Field): Listing
    requires key in t.leads || FirstOf(rows, key) < |rows|
  {
    if LastSaid(rows, key, f) < |rows| then rows[LastSaid(rows, key, f)]
    else if key in t.leads then t.leads[key].listing
    else rows[FirstOf(rows, key)]
  }

  /** The lead of a key the rows leave behind. */
  ghost predicate Settled(t: Tables, rows: seq<Listing>, job: string, now: int, key: Key) {
    var after := UpsertAll(t, rows, job, now);
    && (key in after.leads <==> key in t.leads || FirstOf(rows, key) < |rows|)
    && (key in after.leads ==>
        var lead := after.leads[key];
        && (forall f :: Get(lead.listing, f) == Get(Source(t, rows, key, f), f))
        && (key in t.leads ==>
            && lead.status == t.leads[key].status
            && lead.note == t.leads[key].note
            && lead.firstSeen == t.leads[key].firstSeen
            && lead.listing.key == t.leads[key].listing.key)
        && (key !in t.leads ==> lead.status == "new" && lead.note == "" && lead.firstSeen == now && lead.listing.key == key)
        && lead.lastSeen == if FirstOf(rows, key) < |rows| then now else t.leads[key].lastSeen)
  }

  lemma {:induction false} FirstOfSnoc(rows: seq<Listing>, l: Listing, key: Key)
    ensures FirstOf(rows + [l], key)
      == if FirstOf(rows, key) < |rows| then FirstOf(rows, key) else if l.key == key then |rows| else |rows| + 1
  {
    var all := rows + [l];
    forall j | 0 <= j < |rows| ensures all[j] == rows[j] {
    }
    assert all[|rows|] == l;
    assert FirstOf(rows, key) < |rows| ==> all[FirstOf(rows, key)].key == key;
  }

  /** Each field's source moves to one more row when that row speaks of it. */
  lemma SourceMoves(t: Tables, rows: seq<Listing>, l: Listing, key: Key, f: Field)
    requires key in t.leads || FirstOf(rows, key) < |rows|
    ensures key in t.leads || FirstOf(rows + [l], key) < |rows + [l]|
    ensures Source(t, rows + [l], key, f)
      == if l.key == key && Says(l, f) then l else Source(t, rows, key, f)
  {
    FirstOfSnoc(rows, l, key);
    assert (rows + [l])[..|rows|] == rows;
  }

  lemma OneMoreRow(t: Tables, rows: seq<Listing>, l: Listing, before: Tables, job: string, now: int, key: Key)
    requires key in before.leads ==>
      && (key in t.leads || FirstOf(rows, key) < |rows|)
      && forall f :: Get(before.leads[key].listing, f) == Get(Source(t, rows, key, f), f)
    requires key !in before.leads ==> key !in t.leads && FirstOf(rows, key) == |rows|
    ensures var after := Upsert(before, l, job, now);
      key in after.leads ==>
        && (key in t.leads || FirstOf(rows + [l], key) < |rows + [l]|)
        && forall f :: Get(after.leads[key].listing, f) == Get(Source(t, rows + [l], key, f), f)
  {
    FirstOfSnoc(rows, l, key);
    if key in before.leads {
      forall f
        ensures Get(Upsert(before, l, job, now).leads[key].listing, f) == Get(Source(t, rows + [l], key, f), f)
      {
        SourceMoves(t, rows, l, key, f);
        MergeByField(before.leads[key].listing, l, f);
      }
    } else {
      forall f ensures l.key == key ==> Source(t, rows + [l], key, f) == l {
      }
    }
  }

  /**
   * After a job's rows every field of a lead is the last thing they said about it, and what it was
   * before when they said nothing; status, note and first sighting are never touched.
   */
  lemma {:induction false} FieldsAreLastSaid(t: Tables, rows: seq<Listing>, job: string, now: int, key: Key)
    ensures Settled(t, rows, job, now, key)
  {
    if rows != [] {
      var n := |rows| - 1;
      var earlier, l := rows[..n], rows[n];
      FieldsAreLastSaid(t, earlier, job, now, key);
      assert earlier + [l] == rows;
      FirstOfSnoc(earlier, l, key);
      OneMoreRow(t, earlier, l, UpsertAll(t, earlier, job, now), job, now, key);
    }
  }

  /** A field that is filled, the name included, is never blanked by the businesses of a file. */
  lemma NothingIsBlanked(t: Tables, records: seq<Record>, job: string, now: int, key: Key, f: Field)
    requires key in t.leads && Shown(t.leads[key].listing, f)
    ensures var after := UpsertAll(t, Listings(records), job, now);
      key in after.leads && Shown(after.leads[key].listing, f)
  {
    ListingsAreNamed(records);
    FieldsAreLastSaid(t, Listings(records), job, now, key);
    assert Get(UpsertAll(t, Listings(records), job, now).leads[key].listing, f) == Get(Source(t, Listings(records), key, f), f);
  }

  /** So a store whose leads all have names keeps it so. */
  lemma EveryLeadIsNamed(t: Tables, records: seq<Record>, job: string, now: int)
    requires forall key :: key in t.leads ==> t.leads[key].listing.name != ""
    ensures var after := Ingest(t, Listings(records), job, now);
      forall key :: key in after.leads ==> after.leads[key].listing.name != ""
  {
    var rows := Listings(records);
    forall key | key in UpsertAll(t, rows, job, now).leads
      ensures UpsertAll(t, rows, job, now).leads[key].listing.name != ""
    {
      ListingsAreNamed(records);
      FieldsAreLastSaid(t, rows, job, now, key);
      var from := Source(t, rows, key, Name);
      assert Get(UpsertAll(t, rows, job, now).leads[key].listing, Name) == Get(from, Name);
      assert from in rows || (key in t.leads && from == t.leads[key].listing);
    }
  }

  lemma {:induction false} FoundByJob(t: Tables, rows: seq<Listing>, job: string, now: int)
    ensures UpsertAll(t, rows, job, now).found == t.found + set l | l in rows :: (l.key, job)
  {
    if rows != [] {
      var n := |rows| - 1;
      FoundByJob(t, rows[..n], job, now);
      assert rows == rows[..n] + [rows[n]];
    }
  }

  /** The same tables with every lead the rows mention, and the job, dated anew. */
  function Restamped(t: Tables, rows: seq<Listing>, job: string, now: int): Tables {
    Tables(map k | k in t.leads :: if FirstOf(rows, k) < |rows| then t.leads[k].(lastSeen := now) else t.leads[k],
           t.found, t.ingested[job := Ingested(|rows|, now)])
  }

  lemma SameLeadTwice(t: Tables, rows: seq<Listing>, job: string, first: int, second: int, key: Key)
    requires key in UpsertAll(t, rows, job, first).leads
    ensures var once := UpsertAll(t, rows, job, first);
      var twice := UpsertAll(once, rows, job, second);
      && key in twice.leads
      && twice.leads[key] == if FirstOf(rows, key) < |rows| then once.leads[key].(lastSeen := second) else once.leads[key]
  {
    var once := UpsertAll(t, rows, job, first);
    FieldsAreLastSaid(t, rows, job, first, key);
    FieldsAreLastSaid(once, rows, job, second, key);
    FieldsMakeTheListing(once.leads[key].listing, UpsertAll(once, rows, job, second).leads[key].listing);
  }

  lemma {:induction false} IgnoresIngested(a: Tables, b: Tables, rows: seq<Listing>, job: string, now: int)
    requires a.leads == b.leads
    ensures UpsertAll(a, rows, job, now).leads == UpsertAll(b, rows, job, now).leads
  {
    if rows != [] {
      IgnoresIngested(a, b, rows[..|rows| - 1], job, now);
    }
  }

  lemma SameLeadsTwice(t: Tables, rows: seq<Listing>, job: string, first: int, second: int)
    ensures var once := UpsertAll(t, rows, job, first);
      UpsertAll(once, rows, job, second).leads == Restamped(once, rows, job, second).leads
  {
    var once := UpsertAll(t, rows, job, first);
    forall key
      ensures key in UpsertAll(once, rows, job, second).leads <==> key in once.leads
      ensures key in once.leads ==>
        UpsertAll(once, rows, job, second).leads[key] == Restamped(once, rows, job, second).leads[key]
    {
      FieldsAreLastSaid(t, rows, job, first, key);
      FieldsAreLastSaid(once, rows, job, second, key);
      if key in once.leads {
        SameLeadTwice(t, rows, job, first, second, key);
      }
    }
  }

  /** Folding a job's rows in a second time changes nothing but the dates. */
  lemma IngestTwice(t: Tables, rows: seq<Listing>, job: string, first: int, second: int)
    ensures var once := Ingest(t, rows, job, first);
      Ingest(once, rows, job, second) == Restamped(once, rows, job, second)
  {
    var once := Ingest(t, rows, job, first);
    SameLeadsTwice(t, rows, job, first, second);
    IgnoresIngested(UpsertAll(t, rows, job, first), once, rows, job, second);
    FoundByJob(t, rows, job, first);
    FoundByJob(once, rows, job, second);
    assert Ingest(once, rows, job, second).found == once.found;
  }
}
