# Axio-CRED: a verified model of its stateful cores

Axio-CRED collects public Google Maps listings and reviews, queues and runs the scraping jobs, keeps a lead list,
pays an outside provider for reviews when its own collection falls short, and tracks reporting cases. This project
models the parts of it that keep state, in Dafny, and proves what they promise over whole runs.

`dafny verify dfyconfig.toml` checks everything.

| file | what it models |
|---|---|
| `Common.dfy` | optional and fallible values; "first filled", "last filled" and "first longest" of a list |
| `ReviewSet.dfy` | the indexed, capped union of the reviews of one place, against the whole stream handed to it |
| `ReviewIdentity.dfy` | a route: its rotating proxy identities, and the record of what was asked as each and answered |
| `ReviewRun.dfy` | the collection of one place as functions of what routes, page and clock answer: one page, one stage, both stages, the run and its report; and what every run promises |
| `ReviewEnds.dfy` | how a page, a stage and a run end, read off the record of requests and every look, sleep, URL and request id |
| `ReviewCollector.dfy` | the collector's objects, every method of which carries out its part of those functions exactly |
| `DomReviews.dfy` | reviews read off the page itself: merging, counting what is new, when to stop scrolling |
| `PlaceReviews.dfy` | the second merge against the inline reviews, and when a collection is called complete |
| `ExitMonitor.dfy`, `CentralWriter.dfy` | the completion counters and the flush-once writer as objects |
| `Completion.dfy` | every interleaving of seeds, places, e-mail jobs, the writer and the monitor |
| `FlushProtocol.dfy` | racing flushes, discards, registrations and waiting workers |
| `PaidRequests.dfy` | the ledger of paid requests under interleaved callers |
| `JobQueue.dfy` | the dashboard's queue: stalls, pauses, retries, reruns |
| `CaseWorkflow.dfy` | the reporting cases and their versioned transitions |
| `RateLimit.dfy` | the fixed-window limiter |
| `BlockGuard.dfy` | the back-off after refused pages |
| `Leads.dfy` | the lead list's merge of repeated sightings |
| `Deduper.dfy` | the double-checked set of key hashes |
| `ColumnName.dfy` | spreadsheet column names |

How to read it. Objects the program changes in place are classes whose methods are proved against functions of the old
state or of everything ever handed to them. Concurrent protocols are step relations, one step for each locked region,
channel operation or database statement, and their theorems hold after any sequence of steps. Whatever a network, a
page, a database or a clock answers is arbitrary: each answer is a given function of how often it was asked for, or a
parameter of the step, and the theorems hold for all of them.

## What the proofs turned up

- `enrich` is described as preferring "an earlier publish time" (gmaps/reviewset.go:50-52), but fills the time in only
  when it is missing (gmaps/reviewset.go:66-68). The model does what the code does. The time kept is the earliest there is
  if and only if no later occurrence is earlier than the first one with a time (`ReviewSets.EarliestTimeExactlyWhen`), and
  two reviews for which it is not are `ReviewSets.EarlierTimeIsNotPreferred`.
- A card read off the page keeps the last link, date and reply it is met with, a row of the set the first
  (gmaps/reviews.go:188-198, gmaps/reviewset.go:58-68): `DomReviews.RefreshKeepsTheLatest` beside `ReviewSets.FoldKeepsTheBest`.
- The detail "every proxy identity was refused" is also written when the deadline had passed before the route could
  rotate, or when identities were given up for failures that were no refusals (gmaps/review_collector.go:381-395, 410-418).
  It is true if and only if none was given up for failing and time was not up with another one left:
  `ReviewRuns.EveryIdentityRefusedExactlyWhen` for a page, `ReviewRuns.RefusedDetailHoldsExactlyWhen` for a run, and a whole
  run for each of the two ways it fails, `ReviewRuns.DetailCanBeUntrue`.
- `stopDone` is described as every page served having been read (gmaps/review_report.go:5), but a run stopped on its page
  budget is told as exhausted too, and so is one that was refused when the page's own list makes up the count
  (gmaps/review_collector.go:271-282); when the union reaches the count, `finalize` turns either into done and clears the
  detail that told them apart (gmaps/review_report.go:70-80). `PlaceReviews.DoneOnThePageBudget` and
  `PlaceReviews.DoneWhenRefused` are such runs, `PlaceReviews.DoneExactlyWhen` says which runs are done, and
  `PlaceReviews.DoneReadThroughExactlyWhen` when that means the listing was read through. Likewise an unknown count is told,
  and the page not scrolled, after the page budget as after the end of the listing (gmaps/review_collector.go:249-255):
  `ReviewRuns.UnknownCountOnThePageBudget`; there the detail tells them apart, `ReviewRuns.ReportedCleanEnd`.
- A run that ends well can be charged with a stall and queued again, for either of two causes: a pause leaves the mark of
  the run it stopped standing (runner/webrunner/webrunner.go:658-704), and the watchdog may mark a job after its run has
  been settled (runner/webrunner/webrunner.go:618-650). `JobQueue.PauseChargesAGoodRun` and
  `JobQueue.LateMarkChargesAGoodRun` are such runs from a start. A run is charged if and only if a mark stood at its start
  or was made during it (`JobQueue.ChargedExactlyWhen`), and a mark stands exactly since it was made and until a run of the
  job is settled without a pause (`JobQueue.MarkStandsExactlyWhen`).
- The dashboard's rerun puts a finished job back in the queue (web/web.go:844-877) without clearing its stall attempts: its
  stall requeues stay at two over all reruns, and each rerun may make one more retry job (`JobQueue.StallRequeuesAreBounded`,
  `JobQueue.OneRetryEach`).
- A call for a full history can be resumed onto a pending ten-review sample, because a pending request is reused whatever
  it was made for (app/backend/src/outscraper.ts:126-128): `PaidRequests.FullCallCanResumeASample` is such a run, and
  `PaidRequests.SampleIsResumedExactlyWhen` says exactly when.
- Keys whose hashes collide are taken for duplicates (deduper/hashmap.go:16-42): every key is added if and only if no two
  hashes collide, `Dedupers.EveryKeyIsAddedUnlessHashesCollide`.
- A monitor with no seeds never signals; with at least one it always does once all is counted and sent
  (exiter/exiter.go:49-82): `Completion.SignalIsNeverLost` is an equivalence.

## Model

| member | source | states |
|---|---|---|
| ReviewSets.FoldKeepsTheBest | gmaps/reviewset.go:50-73 | However often a review is met, it keeps the first of the longest descriptions and of the fullest picture lists, and the first link, reply and publish time there is at all. |
| ReviewSets.EarliestTimeExactlyWhen | gmaps/reviewset.go:50-68 | The publish time kept is the earliest there is if and only if no later occurrence is earlier than the first one that has a time. |
| ReviewSets.EarlierTimeIsNotPreferred | gmaps/reviewset.go:50-68 | Two reviews of one id, the second earlier than the first: the first one's time stays. |
| ReviewSets.RowIsBestOfItsReviews | gmaps/reviewset.go:96-123 | The row of an id is the best, in that sense, of all the reviews handed over with that id. |
| ReviewSets.NewIdsExact | gmaps/reviewset.go:96-123 | The ids that call for a row, in first-seen order, are distinct and are exactly the non-empty ids of the stream that are not inline ones. |
| ReviewSets.AddKeepsExact | gmaps/reviewset.go:96-123 | One more review keeps rows, both indexes, inline reviews and orphans exactly what the whole stream calls for: rows for the first `cap` new ids in first-seen order, each the fold of all its occurrences. |
| ReviewSets.AddRefines | gmaps/reviewset.go:91-123 | Started from the fields a stream of reviews calls for, one more review leaves exactly the fields the longer stream calls for. |
| ReviewSets.BelowCapHoldsEverything | gmaps/reviewset.go:115-122 | While the cap refused nothing, every id of the stream is an inline one or has a row. |
| ReviewSets.RowsCarryTheirIds | gmaps/reviewset.go:96-123 | Rows carry different, non-empty ids, none of them an inline one. |
| ReviewSets.RowsOnlyGrow | gmaps/reviewset.go:91-95 | No id that has a row ever loses it. |
| ReviewSets.ReviewSet.constructor | gmaps/reviewset.go:31-48 | The index of inline ids is exact, the last inline review of an id winning; a limit of zero or less means 5000; nothing is held yet. |
| ReviewSets.ReviewSet.Add | gmaps/reviewset.go:91-123 | The set stays exact for the longer stream; the answer is true exactly for an id that is non-empty and unknown, met below the cap. |
| ReviewSets.ReviewSet.AddPage | gmaps/reviewset.go:125-136 | The set stays exact for the stream with the page appended, and the count returned is how many rows it grew by. |
| ReviewSets.ReviewSet.HasIsMembership | gmaps/reviewset.go:75-89 | An id is known exactly when an inline review or a row carries it. |
| ReviewSets.ReviewSet.Distinct | gmaps/reviewset.go:148-157 | The count is the size of the union of inline ids and row ids, and below the cap of everything ever seen. |
| ReviewSets.ReviewSet.WithoutID | gmaps/reviewset.go:159-175 | It counts the kept id-less reviews and the inline ones, which enriching never changes. |
| ReviewSets.HandedOnIsCounted | gmaps/reviewset.go:177-192 | What is handed on is every id-bearing row once, all different and first, then the id-less reviews; neither kind exceeds the cap. |
| ReviewSets.ReviewSet.InlineIsEnriched | gmaps/reviewset.go:105-108 | The last inline review of an id has met every later occurrence of it; no other inline review changed. |
| ReviewSets.NoRepeatsNoChange | gmaps/reviewset.go:96-123 | In a stream without repeated ids every new review becomes its own row, exactly as it came. |
| ReviewIdentity.Route.Pool | gmaps/review_identity.go:59-82 | A pool starts at its second identity, or its only one, with none refused. |
| ReviewIdentity.Route.Rotate | gmaps/review_identity.go:91-107 | The search round the ring leaves the route exactly as the rotation does; false exactly when every identity has been given up. |
| ReviewIdentity.NextFreeIsNext | gmaps/review_identity.go:98-104 | The search finds the nearest identity round the ring that has not been given up, and finds none only when all have been. |
| ReviewIdentity.RotationUsesOne | gmaps/review_identity.go:91-107 | A rotation gives up exactly the identity in use; there is a next one exactly when any is left, and it is the nearest round the ring. |
| ReviewIdentity.RotatingKeepsOrder | gmaps/review_identity.go:91-107 | After a refusal, or failing too often, and the rotation, the identities given up are exactly those refused and those that kept failing, none of them both. |
| ReviewIdentity.AskingKeepsOrder | gmaps/review_identity.go:91-107 | A request as the identity in use keeps the record honest and free of requests made as a refused identity; unless it is refused itself, the route stays in order. |
| ReviewIdentity.GivingOneUp | gmaps/review_identity.go:97 | Each rotation leaves exactly one identity fewer: the measure rotation terminates by. |
| ReviewRuns.ReviewPageBudget | gmaps/reviews.go:24-53 | The budget is at least one page, at most a twentieth of the limit (or one) and exactly that without a count; unless the limit cuts it, it covers the count and sixty reviews more, with about a twentieth of slack and no more. |
| ReviewRuns.FetchAsksFew | gmaps/review_collector.go:361-429 | Asking for one page ends, after at least one request and at most three for every identity not yet given up. |
| ReviewRuns.FetchEndsOnTheAnswer | gmaps/review_collector.go:361-429 | The last answer decides: a page is got exactly when it came; after-rotation is marked exactly on an unreadable or invalid answer with a rotation before it; nothing but that last answer is read. Which of its two ends a failure has, `ReviewEnds.FailedExactlyWhen` says. |
| ReviewEnds.FailedExactlyWhen | gmaps/review_collector.go:401-427 | With a failure as the last answer a page is out of time if and only if the last look found the deadline passed or the last sleep was interrupted, and failed with that answer's detail if and only if neither; and then three failures in a row were made as the last identity, with no other left. |
| ReviewEnds.FetchHeeds | gmaps/review_collector.go:361-427 | Once a look finds the deadline passed or a sleep is interrupted nothing more is asked for the page; a page got, unreadable or invalid comes with every look in time and every sleep whole. |
| ReviewEnds.FetchFailsAfterThree | gmaps/review_collector.go:410-418 | An identity is given up for failing only after three failures in a row as it. |
| ReviewEnds.FetchAsksFor | gmaps/review_collector.go:361-429 | All the requests of a page are for its token, none as an identity given up before, all but the last refused or failing; a rotation came among them exactly when the last is made as another identity than the first. |
| ReviewEnds.FetchPaces | gmaps/review_collector.go:381-427 | The deadline is looked at once for each failure and each refusal a route could rotate after, there is a sleep before each retry, and the pause grows with each failure. |
| ReviewEnds.PaceDoubles | gmaps/review_collector.go:401-404 | It doubles, from one second at least up to eight; a longer one stays. |
| ReviewRuns.EveryIdentityRefusedExactlyWhen | gmaps/review_collector.go:381-395 | When a rotating route ends a page refused, every identity was refused if and only if none was given up for failing and the deadline did not pass with another one left. |
| ReviewRuns.RefusedDetailHoldsExactlyWhen | gmaps/review_collector.go:381-427 | The same of a whole run from unused routes: what the detail "every proxy identity was refused" says is so exactly under that condition. |
| ReviewRuns.DetailCanBeUntrue | gmaps/review_collector.go:381-427 | For every cap and count, two runs of a place through two proxies, from unused, whose report says that every identity was refused while one was not: time runs out between asking for the page and its refusal, and an identity is given up for failing before the other is refused. |
| ReviewRuns.StageKeepsChain | gmaps/review_collector.go:301-359 | From wherever pagination got to, a stage leaves a linked chain of pages; it is whole, below the cap, exactly when the stage ended cleanly; capped exactly when the rows reach the cap. |
| ReviewRuns.BudgetEndHasReadIt | gmaps/review_collector.go:307-340 | A stage stopped on the page budget has read a whole budget of pages, counted anew after its restart. |
| ReviewRuns.StageTellsItsEnd | gmaps/review_collector.go:301-359 | A stage ends refused exactly when its route's last answer was a refusal, unreadable only on an unreadable one, cleanly or full only right after a page. |
| ReviewEnds.StageEndsForAReason | gmaps/review_collector.go:301-359 | Every reason of a stage in both directions, read off the outside: refused on a refusal as the last answer, out of time on a passed deadline or an interrupted sleep otherwise, failed for want of a URL or on an invalid answer or failures, unreadable on an unreadable one; with the answer's own detail, and after-rotation exactly when the record shows one before that answer. |
| ReviewEnds.StageRestartsRightly | gmaps/review_collector.go:321-338 | A stage that ends on a failure after a rotation had nothing to go back to, had started the listing again before, or could not have the request id; it starts again only on an unreadable or invalid answer after a rotation past the first page, from the first page and as that identity, and takes one id each time. |
| ReviewEnds.StagePacesWell | gmaps/review_collector.go:301-359 | For every page read the deadline was looked at and a URL made, and there was a sleep between any two. |
| ReviewRuns.SecondRouteExactlyWhen | gmaps/review_collector.go:217-243 | A run takes the proxies' route exactly when there is one, there is a request id, and the browser is not there or was refused or failed, refused being what its record last shows; otherwise nothing is asked on it. |
| ReviewRuns.CleanEndExactlyWhenWhole | gmaps/review_collector.go:225-357 | In every run the pages since the last restart, whichever route read them, are linked from the empty token with no token twice; the requests end cleanly if and only if that chain leads nowhere new and the cap was not reached, and full if and only if it was. |
| ReviewRuns.PagesAreTheAnswers | gmaps/review_collector.go:225-357 | The pages read, restarts included, are exactly the pages the browser's requests and then the proxies' were answered with, each under the token it was asked for. |
| ReviewRuns.RefusedIdentitiesRest | gmaps/review_collector.go:361-429 | In every run no request is made as an identity refused before, the record holds each answer as given, and n identities rotate n - 1 times at most. |
| ReviewRuns.PagesAreBounded | gmaps/review_collector.go:301-359 | Every run restarts once at most and reads fewer than twice the page budget. |
| ReviewRuns.RunConcludes | gmaps/review_collector.go:245-286 | Every run ends as its requests did, or in the scroll: out of time, full only at the cap, exhausted only with the count reached, the listing read through or the page budget used up. |
| ReviewEnds.RunEndsExactly | gmaps/review_collector.go:245-286 | Where every run ends, in both directions. After a scroll: out of time if and only if the deadline had passed by then; in time, full if and only if at the cap; below it, exhausted if and only if the known count is held or pagination had ended; otherwise, a refusal included, as and where the requests ended, as without a scroll. |
| ReviewEnds.ReportEndsExactly | gmaps/review_collector.go:205-286 | The same of the report: its reason, stage and detail in each of those cases, by its own count of reviews. |
| ReviewEnds.ReportCounts | gmaps/review_collector.go:321-378 | The report counts the pages answered and the requests refused on both routes' records, and at most one restart, which is on a record. |
| ReviewEnds.RequestsEndForAReason | gmaps/review_collector.go:205-251 | The requests of every run ended as the last of its stages did, each of them as `StageEndsForAReason` and `StageRestartsRightly` have it, the proxies' starting where the browser's left off; without an id or a route, in those words. |
| ReviewEnds.RunRestartsRightly | gmaps/review_collector.go:321-338 | A run ended on a failure after a rotation only with nothing to go back to, a restart made before or no id for it; and a restart told in its report is on the record of a route. |
| ReviewRuns.ScrolledExactlyWhen | gmaps/review_collector.go:245-286 | The report names the page's own list exactly when there is a page, an id and time, the requests ended neither full nor out of time, and by the report's own count reviews are missing, or without a count pagination had not ended; then no card with an id is missing from the rows unless they are full, and otherwise reason, detail and counts are those of the requests. |
| ReviewRuns.NothingReadIsMissing | gmaps/review_collector.go:341-350 | Unless the requests filled the set, every id on every page answered, before the restart included, is among the rows handed over. |
| ReviewRuns.ReviewsAddUp | gmaps/review_collector.go:341-350 | The RPC and DOM reviews of the report are together the id-bearing rows handed over, all different and within the cap. |
| ReviewRuns.ReportTells | gmaps/review_collector.go:205-286 | What the reported reason says: exhausted only with a known count that was reached, or after the listing was read through or the page budget used up; unknown count exactly after one of those two without a count, the detail telling which; capped only at the cap; anything else, with its detail, is how the requests ended. |
| ReviewRuns.ReportedCleanEnd | gmaps/review_collector.go:205-286 | A report of exhausted, or of an unknown count, from a request stage means that the listing was read through if and only if it has no detail. |
| ReviewRuns.UnknownCountOnThePageBudget | gmaps/review_collector.go:307-340 | For every review and every cap from 2 to 39, a run without a count that reads one page of a listing that goes on and is told as of unknown count. |
| ReviewCollection.Report.Finalize | gmaps/review_report.go:66-80 | The report afterwards is the report before, settled against the union: no other field moves, and a stop reason only from exhausted to done. |
| ReviewCollection.Collector.AfterRefusal | gmaps/review_collector.go:381-395 | The route, the clock, the report's counts and whether the page is asked for again are those the refusal leads to, for any deadline and identities. |
| ReviewCollection.Collector.AfterTransient | gmaps/review_collector.go:401-427 | The same for a failure: two retries as the same identity, then the next one or the end, and the pace doubled from one second up to eight. |
| ReviewCollection.Collector.FetchOnePage | gmaps/review_collector.go:361-429 | The loop over requests is exactly the function of one page, and the report's blocks and rotations stay those of the route's own record. |
| ReviewCollection.Collector.RunRpcStage | gmaps/review_collector.go:301-359 | The loop over pages ends and is exactly the function of one stage; the set holds exactly what the pages read carried. |
| ReviewCollection.Collector.RunRpcStages | gmaps/review_collector.go:217-243 | Browser and proxies in turn, on one cursor, are exactly the function of both stages; the report names the stages gone through. |
| ReviewCollection.Collector.FoldCards | gmaps/review_collector.go:262-269 | Every card goes into the set, and the DOM count is how many became rows. |
| ReviewCollection.Collector.ConcludeRun | gmaps/review_collector.go:245-286 | Whether the page is scrolled, where the run is said to end and how often the clock is looked at are those of the run's function, on the rows actually held. |
| ReviewCollection.Collector.Run | gmaps/review_collector.go:180-286 | For any answers of routes, page and clock the objects end where the function of the whole run does: the rows and the entire report, stop detail and stage included, are that run's, and the routes' records are its requests. |
| DomReviews.MergeDomReviews | gmaps/reviews.go:166-216 | One row for each key in first-met order, each refreshed by every later card with its key, of exactly the cards that are taken. |
| DomReviews.TakesAllItCan | gmaps/reviews.go:205-212 | A pass takes all that the page shows, or up to the first card whose key no row has when the rows are at the limit. |
| DomReviews.RefreshKeepsTheLatest | gmaps/reviews.go:182-204 | A row keeps the first of the longest texts and fullest picture lists and the last link, date and reply there is. |
| DomReviews.MergedIdsDiffer | gmaps/reviews.go:166-167 | Distinct ids stay distinct rows, whatever the digest of id-less cards is, and no id is made up. |
| DomReviews.IdlessCardsKeepTheirRows | gmaps/reviews.go:175-180 | Cards without an id whose digests differ, and are no card's id, have rows of their own. |
| DomReviews.NoShownCardIsMissing | gmaps/reviews.go:442-465 | Below the limit every card any pass showed was taken and is in the row of its key. |
| DomReviews.NetNewAgainst | gmaps/reviews.go:513-525 | It counts the rows with an unknown id, and with no id twice the new ids. |
| DomReviews.UnionIsCounted | gmaps/reviews.go:325-329 | The number scrolling is stopped on is, below the cap, the count of every distinct id seen anywhere. |
| DomReviews.NetNewBecomesRows | gmaps/reviews.go:513-525 | It is also how many more ids call for a row once the cards are converted and folded into the set. |
| DomReviews.DomShouldStop | gmaps/reviews.go:325-344 | Stopping has a reason that holds, and going on means none does; a full pass is told as such first. |
| DomReviews.ConvertedKeepsIds | gmaps/reviews.go:218-247 | Converting cards to reviews loses no id and adds none. |
| DomReviews.ConvertedOneMore | gmaps/reviews.go:218-247 | A card with a name or an id becomes the review of what it shows, in order, any other none. |
| DomReviews.StuckExactlyWhen | gmaps/reviews.go:467-473 | The count of stuck passes is at least m if and only if the last m passes together brought no new card. |
| DomReviews.ExtractReviews | gmaps/reviews.go:433-511 | The rows are those of the cards the page showed up to where the scroll ends, and it ends where, and for the reason that, its passes call for. |
| DomReviews.ScrollEndsExactly | gmaps/reviews.go:442-506 | That is the first pass after which the cards reach the limit, the union the target, or nothing new came for fifteen passes, unless time or the attempts run out before: then there is no reason. |
| DomReviews.ScrollTells | gmaps/reviews.go:433-511 | The rows have distinct ids, all of them shown by the page, within the limit; full means at the limit, enough that known and new ids reach the target, stuck that fifteen passes brought nothing. |
| PlaceReviews.SecondMergeRefusesNone | gmaps/place.go:121-130 | Merging the collected rows with the inline reviews refuses none of them and changes none that is kept. |
| PlaceReviews.MergeInline | gmaps/place.go:124-134 | What is written out is exactly the collected rows no inline review covers, unchanged and in order; the inline reviews are enriched by the rest; the count is that of the union of both, the count without id that of both together. |
| PlaceReviews.CollectReviews | gmaps/place.go:219-230 | A place that neither reports nor shows reviews is told as having none; of any other, rows and report are those of its run. |
| PlaceReviews.PlaceCollection | gmaps/place.go:115-140 | End to end, for any answers: the whole report is that of the place's run settled against the union with the inline reviews, what is written out is its rows beyond them, and each inline review has met the rest. |
| PlaceReviews.CompleteIsEarned | gmaps/review_report.go:66-80 | Of a place with reviews complete is the same as done; it takes a run told as exhausted, a known positive count and as many distinct ids, and then the listing was read through, the page budget was used up, or the collected ids alone reach the count; every other reason is never complete; a run whose own ids reach the count stays complete after the merge. |
| PlaceReviews.DoneExactlyWhen | gmaps/review_report.go:66-80 | Exactly which runs are done: the union reaches a known count, and the requests came to the end of the listing or of the page budget with no scroll after it that ran out of time or filled the set, or they were refused, failed or unreadable and such a scroll reached the count by itself. |
| PlaceReviews.DoneReadThroughExactlyWhen | gmaps/review_report.go:5-8 | Done means the listing read through if and only if pagination ended there; it did not exactly when it ended on the page budget, with that many pages read, or was refused, failed or unreadable with the page's own list making up the count. Fewer pages than the budget and no scroll are enough for it to mean that. |
| PlaceReviews.DoneOnThePageBudget | gmaps/review_report.go:66-80 | For every two reviews of different ids and every cap from 2 to 39, a run that reads one page of a listing that goes on and is settled as done and complete. |
| PlaceReviews.DoneWhenRefused | gmaps/review_collector.go:271-280 | For every two cards of different ids, a run that reads no page at all, refused at once, and is settled as done and complete. |
| PlaceReviews.SettlingKeepsTheReason | gmaps/review_report.go:66-80 | Settling turns exhausted into done and nothing else, keeps stage and detail with the reason, and calls complete only what is done or has no reviews. |
| PlaceReviews.NothingCollectedIsLost | gmaps/place.go:121-135 | However a run ended: its id-bearing rows are the RPC and DOM reviews told of, each is written out or covered by an inline review, collected counts the union of inline and written ids, and the id-less are counted beside it. |
| ExitMonitor.Exiter.IncrSeedCompleted | exiter/exiter.go:49-61 | The count moves by the value and the signal is raised exactly when that leaves everything counted. |
| ExitMonitor.Exiter.IncrPlacesCompleted | exiter/exiter.go:70-82 | The same for places. |
| CentralWriters.CentralWriter.RegisterJob | scraper/centralwriter.go:57-75 | The new job replaces whatever was tracked, with no entries and an empty channel of its own. |
| CentralWriters.CentralWriter.AddResult | scraper/centralwriter.go:77-87 | An entry joins the tracked job if it is that job's, and is dropped otherwise. |
| CentralWriters.CentralWriter.Discard | scraper/centralwriter.go:99-107 | The job is no longer tracked, nothing is saved, any other job stays. |
| CentralWriters.CentralWriter.Flush | scraper/centralwriter.go:126-168 | The tracked job's entries are saved once, in order, its channel gets one result, and it is tracked no more; for any other job nothing happens. |
| Completion.AllCountedMeansQuiet | exiter/exiter.go:49-82 | The monitor's arithmetic test holds exactly when every seed and every found place has been counted. |
| Completion.InvKept | gmaps/job.go:208-211 | Every step of seeds, places, e-mail jobs, writer and monitor keeps the counters equal to what happened, the writer's entries exactly those added, and somebody aware exactly when all is counted. |
| Completion.SignalIsNeverEarly | exiter/exiter.go:70-93 | In every interleaving, for any number of seeds, a signal means every found place is counted and every successful place's entry is with the writer. |
| Completion.SignalIsNeverLost | exiter/exiter.go:49-61 | Once all is counted and every send made, the signal is there or was received, if and only if there was a seed. |
| Completion.FlushSavesEverySuccess | scraper/centralwriter.go:187-234 | With no earlier forced flush, the monitor's flush saves exactly one entry for each successful place, no other. |
| Completion.WriterCountsItsPlaces | scraper/centralwriter.go:205-234 | Counting a batch counts exactly its places, each for the first time. |
| Completion.CountsKept | gmaps/searchjob.go:121-130 | Found before completed: no step lets a counter run ahead of or behind what it counts. |
| FlushProtocol.InvKept | scraper/centralwriter.go:126-168 | No registration is ever taken by two flushes, however they race with discards and new registrations. |
| FlushProtocol.SavedAndCompletedOnce | scraper/centralwriter.go:126-168 | A registration is saved at most once, with entries of its own job id only, and completed at most once, after its save and with its outcome. |
| FlushProtocol.SendNeverBlocks | scraper/centralwriter.go:159 | A flush that has saved always finds its one-slot channel free. |
| FlushProtocol.SuccessMeansSaved | rqueue/rqueue.go:251-264 | A worker reports success only after one successful save of its own registration. |
| FlushProtocol.SuccessExactlyWhen | rqueue/rqueue.go:251-334 | In any run, a worker has reported success exactly when it once received its result with its own registration saved successfully and either was still waiting, saved entries or none, or had been forced by a timeout or deadline with at least one entry saved. |
| FlushProtocol.ForcedSuccessSavedSomething | rqueue/rqueue.go:265-335 | After a forced flush success also takes a saved entry, and a timeout or deadline as the cause. |
| PaidRequests.PriorFinds | app/backend/src/outscraper.ts:124-125 | No prior row is found exactly when none of the place is less than a day old; one found is the latest such row. |
| PaidRequests.ReuseServesTheCall | app/backend/src/outscraper.ts:124-130 | The place's latest row of the day is reused exactly when it succeeded and is as full as asked for, or is pending with a request id and under three hours old; no other row ever is, and none is made beside it. |
| PaidRequests.SampleIsResumedExactlyWhen | app/backend/src/outscraper.ts:126-128 | A call for a full history is served by a row not made for one if and only if the place's latest row of the day is such a row, pending, with a request id and under three hours old. |
| PaidRequests.FullCallCanResumeASample | app/backend/src/outscraper.ts:118-150 | For every configuration, every legal place id and any two clocks under three hours apart, a run in which a sample is reserved, submitted and recorded as pending, and a call for the full history then follows it and nothing more is submitted. |
| PaidRequests.FreshFits | app/backend/src/outscraper.ts:131-140 | A new reservation is reserved, of this place, time, month and kind, fits the job and month limits, improves on what is already collected, and is a day after any other of its place. |
| PaidRequests.FreshExactlyWhen | app/backend/src/outscraper.ts:123-141 | A reservation is made exactly when none of the place is under a day old, nothing cools down, allowance is left and, for a full history, more of it than is collected. A sample is given ten reviews, a history of known length that and ten more, any other the job's limit, each as far as the job's limit and the month's rest go. |
| PaidRequests.OutscraperFallback.Reserve | app/backend/src/outscraper.ts:122-141 | The transaction adds exactly the reservation it decides on, or nothing. |
| PaidRequests.OutscraperFallback.Update | app/backend/src/outscraper.ts:106-108 | The row of the id, and no other, takes the patch; without such a row nothing changes. |
| PaidRequests.OutscraperFallback.Status | app/backend/src/outscraper.ts:95-105 | Ready, once configured, is exactly what a sample of any place without a request under a day old would be told now: that it is given a reservation. |
| PaidRequests.PatchKeepsLedger | app/backend/src/outscraper.ts:106-108 | Updates never change a month's total, a limit, or how far apart reservations are. |
| PaidRequests.ReservationsStayWithinLimits | app/backend/src/outscraper.ts:118-141 | For interleaved callers with any clocks: each month's reserved limits sum to at most the monthly limit, and two reservations of one place are a day apart. |
| PaidRequests.OneSubmissionEach | app/backend/src/outscraper.ts:142-150 | A reservation is submitted at most once, by the caller that made it; a resumed call never submits. |
| PaidRequests.SpendStaysWithinLimit | app/backend/src/outscraper.ts:118-150 | No month is charged for more reviews than its limit. |
| JobQueue.Webrunner.MarkPaused | runner/webrunner/webrunner.go:897-909 | The running job is marked, and stopped, once. |
| JobQueue.Webrunner.AfterJob | runner/webrunner/webrunner.go:658-688 | A pause mark wins and leaves a stall mark standing; a stall mark taken is one more attempt. |
| JobQueue.SettlingPays | runner/webrunner/webrunner.go:690-729 | What happens after a run never adds to the runs made and still to be made: a stall uses up one of two, a retry job takes over the three runs its origin had set aside for it. |
| JobQueue.BoundKept | runner/webrunner/webrunner.go:253-326 | No step raises the measure of runs, except an enqueue by six, a rerun by four and a pause by one. |
| JobQueue.RunsAreBounded | runner/webrunner/webrunner.go:253-326 | Whatever stalls, fails or goes unsaved, there are at most six runs a job enqueued, four more a rerun of a finished job, and one more a pause, the reruns racing the worker included. |
| JobQueue.StallRequeuesAreBounded | runner/webrunner/webrunner.go:690-704 | A job is queued again for a stall at most twice, however often it is rerun, and no more often than the watchdog marked. |
| JobQueue.OneRetryEach | runner/webrunner/webrunner.go:706-732 | The retry jobs that name a job as their origin are at most one and one more for each rerun of it, and none when it is a retry itself; every origin exists and is no retry. |
| JobQueue.RerunRunsAgain | web/web.go:844-877 | A finished job, ok or failed, that is rerun goes through the queue and runs again, its marks and attempts as they were. |
| JobQueue.OnlyStallMarksUseAttempts | runner/webrunner/webrunner.go:658-688 | Attempts change exactly when a stall mark is taken after a run: a pause uses none. |
| JobQueue.ChargedExactlyWhen | runner/webrunner/webrunner.go:658-732 | In any run of the process, a run that no pause stopped is charged with a stall if and only if a mark stood at its start or the watchdog marked its job during it; charged, it is queued again twice and then fails; not charged, it gets a retry job exactly when it ended well, is no retry and had empty searches. |
| JobQueue.MarkStandsExactlyWhen | runner/webrunner/webrunner.go:592-688 | A mark stands if and only if the watchdog made it and no run of the job has been settled without a pause since. |
| JobQueue.PauseChargesAGoodRun | runner/webrunner/webrunner.go:658-704 | From a start: a run marked and then paused, and a second run, never looked at, that ends well and is queued again as stalled. |
| JobQueue.LateMarkChargesAGoodRun | runner/webrunner/webrunner.go:592-704 | From a start and without a pause: a mark made after its run was settled has the next, good run queued again as stalled. |
| CaseWorkflow.ReportingStore.Create | app/backend/src/reporting.ts:71-81 | One case for each key, a draft with its creator as assignee; a duplicate returns the case there is. |
| CaseWorkflow.ReportingStore.Patch | app/backend/src/reporting.ts:82-103 | The case where its action takes it, with what the update says, one version and one line on, or a rule it breaks with nothing changed. |
| CaseWorkflow.AcceptedUpdateLands | app/backend/src/reporting.ts:97-102 | An accepted approval leaves the case approved, a submission submitted, a closing closed, a save draft exactly when it was approved and the evidence changed and otherwise as it was; evidence, reference and outcome are the update's, the log has one line more, in its own words, and no other case changes. |
| CaseWorkflow.RefusedExactlyWhenARuleIsBroken | app/backend/src/reporting.ts:86-96 | An update is refused exactly when it breaks one of the rules, each stated on its own, and the refusal names one it breaks. |
| CaseWorkflow.RunsStaySound | app/backend/src/reporting.ts:71-103 | After any requests: versions count events, ids and keys are unique, approved and submitted cases carry their complete approval, closed is recorded with where from. |
| CaseWorkflow.SubmittedCarriesItsApproval | app/backend/src/reporting.ts:91-101 | A submitted case, or one closed from submitted, carries exactly the notes, policy and assignee of its latest approval. |
| CaseWorkflow.NoUpdateIsLost | app/backend/src/reporting.ts:85-102 | For each case and version at most one update is accepted, and the version always counts the events. |
| CaseWorkflow.CasesMoveRightly | app/backend/src/reporting.ts:85-102 | Submitted is reached only from approved with the evidence unchanged, submitted evidence is locked, closed does not change. |
| CaseWorkflow.ClosedStaysClosed | app/backend/src/reporting.ts:90 | No later request, of any number, changes anything about a closed case. |
| CaseWorkflow.ClosedSaysWhy | app/backend/src/reporting.ts:96 | Every closed case has an outcome. |
| CaseWorkflow.OnlyOwnerOrAssigneeUpdates | app/backend/src/reporting.ts:86-89 | An accepted update is the owner's, or the assignee's leaving the assignment alone, and assigns an active member or nobody. |
| RateLimits.Limiter.Check | ratelimit/postgres/postgres.go:27-82 | The key's row starts a new window when there is none or it has run out, and else counts one more; no other row changes; the verdict is judged on it. |
| RateLimits.Limiter.Cleanup | ratelimit/postgres/postgres.go:90-101 | Exactly the rows older than the age go, and are counted. |
| RateLimits.CleanupIsInvisible | ratelimit/postgres/postgres.go:90-101 | Removing rows at least a window old changes no answer to any later call. |
| RateLimits.FewerThanTwiceTheLimit | ratelimit/postgres/postgres.go:27-82 | In any half-open interval one window long fewer than twice the limit of calls are allowed for a key, whatever other keys and removals do in between. |
| RateLimits.TheCeilingIsReached | ratelimit/postgres/postgres.go:27-82 | No smaller bound holds: for every limit, and windows of two ticks on, a run reaches 2·limit - 1. |
| BlockGuards.ClampedShift | gmaps/blockguard.go:58 | The shift clamped at five holds exactly as long as unbounded doubling capped at five minutes. |
| BlockGuards.HoldsInSeconds | gmaps/blockguard.go:17-24 | The holds are 20, 40, 80 and 160 seconds, and five minutes from the fifth refusal in a row on. |
| BlockGuards.OneMoreEvent | gmaps/blockguard.go:48-70 | A refusal makes the run one longer and holds pages for as long as that calls for; a page that loads ends the run and changes nothing else. |
| BlockGuards.BlockGuard.Refused | gmaps/blockguard.go:48-62 | The guard stays exact for the longer history: the hold is the latest any refusal ever asked for. |
| BlockGuards.BlockGuard.Loaded | gmaps/blockguard.go:64-70 | A page that loads ends the run of refusals and shortens no hold. |
| BlockGuards.BlockGuard.Wait | gmaps/blockguard.go:72-91 | A load waits exactly until the latest hold any refusal asked for. |
| BlockGuards.BlockGuard.Stats | gmaps/blockguard.go:100-115 | Recent counts all refusals ever made in the last ten minutes although the list was pruned; the back-off is whole seconds of what is left. |
| BlockGuards.RecentAfterStale | gmaps/blockguard.go:106-112 | Dropping the stale front leaves exactly the recent ones. |
| BlockGuards.NeverHeldLonger | gmaps/blockguard.go:17-24 | No page is held more than five minutes past the latest refusal. |
| Leads.LeadStore.IngestCSV | web/leads/ingest.go:17-54 | All the businesses of a file are folded in, in order, and the job recorded, or nothing changes. |
| Leads.ListingsAreNamed | web/leads/ingest.go:109-118 | What is read from a file are whole records with a name and an id of their own. |
| Leads.ListingsAreAll | web/leads/ingest.go:104-122 | Every whole record with a name and a place id or a link is listed, under the one or else the other, in order; no other is. |
| Leads.MergeByField | web/leads/store.go:233-247 | A field a sighting speaks of, the name always, is taken from it; every other is kept. |
| Leads.FieldsAreLastSaid | web/leads/store.go:227-263 | After any rows each field is the last non-blank thing said about it, or what it was; status, note and first sighting are untouched. |
| Leads.NothingIsBlanked | web/leads/store.go:227-228 | A field that is filled, the name included, is never blanked by the businesses of a file. |
| Leads.EveryLeadIsNamed | web/leads/ingest.go:109-118 | Folding files in keeps every lead named. |
| Leads.FoundByJob | web/leads/store.go:260 | The job is noted against exactly the leads its rows mention. |
| Leads.IngestTwice | web/leads/ingest.go:17-54 | Folding a job's rows in twice is folding them in once, but for the dates. |
| Dedupers.Deduper.AddIfNotExists | deduper/hashmap.go:16-35 | Alone, it adds the hash and says whether it was new. |
| Dedupers.OneCallPerHashAdds | deduper/hashmap.go:16-35 | In every interleaving, once any call for a hash has returned, exactly one of its calls has returned true. |
| Dedupers.EveryKeyIsAddedUnlessHashesCollide | deduper/hashmap.go:16-42 | When all have returned, every key was added by some call if and only if no two keys share a hash. |
| ColumnNames.ColumnName | web/leads/export.go:157-167 | The loop gives the bijective base-26 name, and the empty one below zero. |
| ColumnNames.NameReadsBack | web/leads/export.go:157-167 | Reading a name back gives the index, for every index. |
| ColumnNames.EveryNameIsReached | web/leads/export.go:157-167 | Every word of capital letters is the name of the index it reads as. |
| ColumnNames.NamesNeverCollide | web/leads/export.go:157-167 | No two columns share a name. |

## Left out

- Browsers, HTTP and TLS clients, Google, payment, cloud and messaging services: their answers are arbitrary.
- Parsing of pages, protobuf, JSON and CSV, and the verdict on a response (`classifyRPC`): pages, listings and verdicts are given.
- Real time: clocks are integers or arbitrary verdicts; no claim is made about durations beyond the comparisons the code makes.
- Elapsed and budget seconds in the report, logs, metrics and telemetry.
- SQL engines and lock files: a statement, or a transaction under the lock, is one step that happens whole or throws.
- scrapemate and River: it is assumed that each job's `Process` runs once, that results reach the writer, and that follow-up jobs start after their parent returned.
- Completion counting when the writer does not manage it, where each `Process` counts its own place.
- In `Completion.dfy` a job is registered once; entries of an earlier attempt under the same job id are told apart by that id only, as in the code.
- The process restart after browsers that would not close; the queue theorems are about one process.
- ReviewCollection.Collector.FoldCards: the cards are any at all; `DomReviews.ExtractReviews` says what the scroll itself guarantees, which the run does not need.
- ReviewRuns.Written: the error text after "no request id" is not carried.
- DomReviews.ExtractReviews: the clicks and waits before the scroll, and the page's answer to a scroll, are only in what each pass shows; a cancelled context and a passed deadline are one verdict.
- Deleting a job from the dashboard is not a step of `JobQueue.dfy`.
- RateLimits.Limiter.Check: the database error path returns nothing and changes nothing, and is not modelled.
- JobQueue.RunsAreBounded: a run is one whose start was recorded; attempts whose first database update fails are not counted, and are made again on the next tick without limit, as in the code.
- JobQueue.Webrunner.AfterJob: which searches came back empty, and whether a job is a map grid, is one arbitrary verdict in the steps.
- PaidRequests.OneSubmissionEach: random reservation ids are taken to be unique (ids are positions in the ledger).
- CaseWorkflow.ReportingStore.Create: the review's snapshot and where it was collected are not modelled, the key stands for them.
- Reporting members' own lifecycle (invitations, the limit of twenty, sign-in): only who is active matters to a case.
- Leads.LeadStore.IngestCSV: the row ids of leads are replaced by their unique source and source id; setters, filters and exports are left out.
- CSV and XML escaping, phone formats, entitlements, pause-window arithmetic, configuration parsing: easier members that would add little.
