# Farcaster-Constellations broadcast delivery, in Dafny

This project models the notification broadcast pipeline of Farcaster-Constellations.
An admin composes a message and starts a broadcast to every fid that owns a constellation record. The admin page also sends a typed list of fids, but the start route never reads it.
The start route enqueues one broadcast: the message, a Redis list of pending fids and a stats hash of counters.
The worker route pops the fids one at a time and sends each one through the notification transport.
It settles every fid into the succeeded set or the failed hash, then completes the broadcast.
The status route reports progress, an ETA and completion.
The click route records which notification links were opened.
The analytics library turns the stored keys into a funnel, an error breakdown, a click-timing distribution and CSV exports.

The Redis keys of one broadcast (message, pending, processing, succeeded, failed, clicks, stats) are the datatype `BroadcastQueue.Keys`.
The global `broadcast:active` set and `broadcast:history` list sit beside them in the class `BroadcastQueue.Store`, whose methods update them in place.
Each helper of `lib/broadcast-queue.ts` is a method of `Store` that applies a pure transition (`AfterEnqueue`, `AfterPop`, `AfterSuccess`, `AfterFailure`, `AfterRemove`, `AfterComplete`, `AfterRetry`) to one broadcast's keys.
The counter discipline and the queue order are proved about those transitions.
The worker's loop is a method with a loop invariant, proved against the recursive specification `WorkerRoute.Drain`.
The loops of the analytics library are methods proved against `BreakdownOf`, `TallyClicks` and the row functions of the CSV exports.

Modules, one per source file:

- `Common`: JavaScript helpers the pipeline relies on, namely number-to-text, `parseInt` without a radix, `includes`, `\s` and the store's member enumeration.
- `BroadcastQueue`: `lib/broadcast-queue.ts`.
- `WorkerRoute`: `app/api/admin/broadcast/worker/route.ts`.
- `StatusRoute`: `app/api/admin/broadcast/status/route.ts`.
- `StartRoute`: `app/api/admin/broadcast/start/route.ts`.
- `ClickRoute`: `app/api/track-notification-click/route.ts`.
- `BroadcastAnalytics`: `lib/broadcast-analytics.ts`.
- `AdminPage`: the guards and fid parser of `handleBroadcastToSelected` in `app/admin/broadcasts/page.tsx`.

Five behaviours of the code worth knowing:

- `getNextFID` does not decrement the `pending` counter; `markSuccess` and `markFailed` do. A fid in flight is therefore counted both as pending and as processing, and `sent + failed + pending == total` holds at every step.
- The worker's `if (!fid) break` also stops on a popped fid of 0. That 0 stays in the processing set, and the fids pushed before it stay in the list (`WorkerRoute.DrainStopsAtZero`).
- `completeBroadcast` does nothing when the stats hash does not exist, and it keeps the broadcast in the history.
- A click is recorded under the text of `parseInt(fid)`, which is "NaN" for a fid that does not parse, and the stats hash is created by the increment even for an unknown broadcast.
- The admin page's "broadcast to selected" action posts its parsed fid list as `testFids`, but the start route reads only `message` from the body and enqueues every record owner. A "selected" broadcast therefore reaches all users (`StartRoute.Post` takes no fid list).

Clocks, the transport and the date formatter are parameters.
`idClock` and `startClock` are the two `Date.now()` readings of `enqueueBroadcast`, `now` is the reading of the other routes, `send` stands for `sendNotificationWithRetry`, and `formatDate` stands for `toISOString`.

## Model

| member | source | states |
|---|---|---|
| Common.IntToString | lib/broadcast-queue.ts:40 | the decimal text a fid is stored as: at least one character, all digits except a leading '-' |
| Common.ParseIntOfIntToString | lib/broadcast-queue.ts:128 | `parseInt` reads back exactly the number whose decimal text was pushed (`fids.map(String)`), so the fid popped is the fid enqueued |
| Common.ParseIntPrefix | lib/broadcast-analytics.ts:202 | `parseInt` of a number's text followed by any non-digit, non-'x' rest is that number |
| Common.TrimStart | lib/broadcast-queue.ts:128 | the leading white space `parseInt` skips: the result is a suffix of the input and starts with no white space |
| Common.ContainsAt | lib/broadcast-analytics.ts:102-111 | `includes` holds exactly when the substring occurs at some position |
| Common.EnumerationLength | lib/broadcast-queue.ts:163-170 | an enumeration of a set (HGETALL or SMEMBERS order) has exactly as many entries as the set |
| Common.Enumerate | lib/broadcast-analytics.ts:199 | SMEMBERS lists every member of a set once and nothing else, in an order the store chooses |
| Common.EnumerateFids | lib/broadcast-queue.ts:164-166 | Object.entries of the failed hash lists every fid once and nothing else, the array-index fids first and in ascending order |
| Common.PropertyOrderUnique | lib/broadcast-queue.ts:164-166 | when every fid is an array index, a listing in property order is strictly ascending and is the only one: the order is fully determined |
| BroadcastQueue.StatusOf | lib/broadcast-queue.ts:70-93 | null exactly when the stats hash does not exist; otherwise the counters as stored, so the status is balanced iff the hash is |
| BroadcastQueue.LPush | lib/broadcast-queue.ts:40 | LPUSH grows the list by exactly the values pushed |
| BroadcastQueue.PopOrder | lib/broadcast-queue.ts:121 | the sequence successive RPOPs yield has one entry per list element |
| BroadcastQueue.PopOrderAfterHead | lib/broadcast-queue.ts:121 | a value at the head of the list is popped after all the others |
| BroadcastQueue.LPushIsFifo | lib/broadcast-queue.ts:40 | FIFO: fids pushed by LPUSH are popped by RPOP after everything already queued, in the order given |
| BroadcastQueue.LPushElements | lib/broadcast-queue.ts:187 | LPUSH adds exactly the pushed values as a multiset, with no loss and no duplication |
| BroadcastQueue.AfterEnqueue | lib/broadcast-queue.ts:24-56 | after enqueue the status is total = pending = number of fids with all other counters 0, balanced; the fids are popped after any older ones in the given order; the per-fid keys are untouched; an empty list ends quiescent |
| BroadcastQueue.Popped | lib/broadcast-queue.ts:121-122 | RPOP yields null exactly on an empty list, otherwise a member of the list |
| BroadcastQueue.AfterPop | lib/broadcast-queue.ts:120-129 | a pop moves one fid into processing and raises the processing counter by one, leaves pending/sent/failed/total as they are (the pending counter is not decremented), keeps every other key and counter, keeps the balance, and changes nothing on an empty list |
| BroadcastQueue.PopTakesOldest | lib/broadcast-queue.ts:121 | the fid popped is the oldest one queued, and the rest keep their pop order |
| BroadcastQueue.AfterSuccess | lib/broadcast-queue.ts:98-102 | markSuccess adds the fid to succeeded, sent +1, pending -1, every other key and counter kept, balance preserved |
| BroadcastQueue.AfterFailure | lib/broadcast-queue.ts:107-115 | markFailed records the error under the fid, overwriting an earlier one and keeping the other entries; failed +1, pending -1; every other key and counter kept; balance preserved |
| BroadcastQueue.AfterRemove | lib/broadcast-queue.ts:134-137 | removeFromProcessing removes the fid from the set and lowers the processing counter even if the fid was absent; every other key and counter kept; balance preserved |
| BroadcastQueue.AfterComplete | lib/broadcast-queue.ts:142-158 | without stats nothing changes; otherwise endTime is now and duration is now minus startTime, the message, the counters and the per-fid keys are unchanged, and quiescence is kept |
| BroadcastQueue.RetryRequeuesFailed | lib/broadcast-queue.ts:175-199 | a retry re-queues exactly the failed fids (as a multiset) behind those still pending, empties the failed hash, moves their number from failed to pending, keeps every other key and counter, and preserves balance and quiescence |
| BroadcastQueue.EnumerationMultiset | lib/broadcast-queue.ts:186-187 | the fids listed from the failed hash are exactly its keys, each once |
| BroadcastQueue.Store.EnqueueBroadcast | lib/broadcast-queue.ts:24-65 | the id is the decimal text of the clock; that broadcast's keys become AfterEnqueue of what they were; the id joins the active set and becomes the newest history entry |
| BroadcastQueue.Store.MarkSuccess | lib/broadcast-queue.ts:98-102 | only that broadcast's keys change, by AfterSuccess |
| BroadcastQueue.Store.MarkFailed | lib/broadcast-queue.ts:107-115 | only that broadcast's keys change, by AfterFailure |
| BroadcastQueue.Store.GetNextFID | lib/broadcast-queue.ts:120-129 | returns the tail of the pending list, or null and no change when it is empty; otherwise the keys become AfterPop |
| BroadcastQueue.Store.RemoveFromProcessing | lib/broadcast-queue.ts:134-137 | only that broadcast's keys change, by AfterRemove |
| BroadcastQueue.Store.CompleteBroadcast | lib/broadcast-queue.ts:142-158 | a no-op without a status; otherwise the keys become AfterComplete and the id leaves the active set; the history is kept |
| BroadcastQueue.Store.GetFailedFIDs | lib/broadcast-queue.ts:163-170 | the listed fids enumerate the failed hash, each once, in property order (array indices ascending first), and every entry carries the error stored for its fid |
| BroadcastQueue.Store.RetryFailed | lib/broadcast-queue.ts:175-199 | returns the number of failed fids; with none nothing changes; otherwise the keys become AfterRetry over the failed fids in property order and the id is active again; the failed hash ends empty either way |
| BroadcastQueue.Store.GetBroadcastHistory | lib/broadcast-queue.ts:214-216 | the newest `limit` ids for a positive limit (50 when the caller gives none); for limit 0 the stop index -1 returns the whole list, and a negative limit drops ids from the old end |
| BroadcastQueue.RetryTwice | lib/broadcast-queue.ts:178-180 | a second retry without a worker run between finds nothing and returns 0 |
| WorkerRoute.TrackingUrlShape | app/api/admin/broadcast/worker/route.ts:63 | the tracking link starts with the target URL, continues with '&' when the URL already has a '?' and '?' otherwise, ends with notif=<id>_<fid>, and always holds a '?' |
| WorkerRoute.FailureText | app/api/admin/broadcast/worker/route.ts:80-97 | the error recorded for a failure: an exception's message as it is; a rejected send's error when it is present and non-empty, and 'Unknown error' when it is absent or empty |
| WorkerRoute.SettleEffect | app/api/admin/broadcast/worker/route.ts:73-97 | settling a popped fid removes it from processing (counter -1), puts it in succeeded on delivery or in failed with its error otherwise, moves one from pending to sent + failed, preserves balance, and leaves the message, clicks, total and times alone |
| WorkerRoute.TurnEffect | app/api/admin/broadcast/worker/route.ts:52-99 | one loop turn pops the tail fid and settles it: one fewer pending, processedCount +1, consecutiveErrors back to 0 on a delivery and +1 otherwise, the processing counter back where it was, sent + failed +1, balance kept, the fid ends succeeded or failed, message, clicks, total and times untouched |
| WorkerRoute.DrainSettlesEveryFid | app/api/admin/broadcast/worker/route.ts:52-100 | with no 0 queued, the loop empties the list and settles every queued fid into succeeded or failed; processedCount, pending and sent + failed move by the list length; processing and total are unchanged; balance is preserved |
| WorkerRoute.DrainStopsAtZero | app/api/admin/broadcast/worker/route.ts:53-57 | a queued 0 stops the loop where it is popped: the fids pushed before it stay queued, 0 stays in processing, and only the fids popped before it are counted |
| WorkerRoute.DrainStopsAtZeroStats | app/api/admin/broadcast/worker/route.ts:53-57 | when a 0 stops the loop the processing counter is left one up, pending is down by the fids settled, and balance is preserved |
| WorkerRoute.DrainKeepsRecord | app/api/admin/broadcast/worker/route.ts:52-100 | however the loop ends, it never touches the message, the clicks hash, the click counter, the total or the times |
| WorkerRoute.DrainCompletes | app/api/admin/broadcast/worker/route.ts:52-103 | from a quiescent broadcast with stats and no 0 queued, the loop and completeBroadcast leave an empty list, pending and processing at 0, and sent + failed == total; the duration is measured from the startTime the enqueue wrote, and the message and clicks are kept |
| WorkerRoute.SettleFid | app/api/admin/broadcast/worker/route.ts:73-98 | the try and catch blocks change the broadcast's keys exactly by Settle and report delivery exactly when the send succeeded |
| WorkerRoute.SendAndSettle | app/api/admin/broadcast/worker/route.ts:59-98 | after a truthy pop: processedCount +1, the keys settled by the transport's answer for that call, and consecutiveErrors reset on a delivery and raised by one otherwise |
| WorkerRoute.LoopTurn | app/api/admin/broadcast/worker/route.ts:53-99 | one pass of the loop body: it breaks exactly when getNextFID yields null or 0 (state AfterPop), otherwise the state is one Turn of the old one; only that broadcast changes |
| WorkerRoute.DrainQueue | app/api/admin/broadcast/worker/route.ts:48-100 | the `while (true)` loop leaves the broadcast's keys and both counters exactly as the specification Drain prescribes |
| WorkerRoute.DrainAdvance | app/api/admin/broadcast/worker/route.ts:52-100 | one pass of the loop body either ends the drain where Drain ends it, or leaves the same drain still to come on a strictly shorter list |
| WorkerRoute.Post | app/api/admin/broadcast/worker/route.ts:17-113 | 400 for a missing id, 400 for an inactive broadcast, 404 without a message, each with the store unchanged; otherwise the drained keys are completed and the final status is returned; from a quiescent start with no 0 queued the broadcast ends empty, quiescent and inactive, with its duration counted from its startTime |
| StatusRoute.ProgressTenths | app/api/admin/broadcast/status/route.ts:28-45 | progress in tenths of a percent is the nearest integer to 1000 * done / total, halves rounded up, and 0 without a total |
| StatusRoute.ProgressInRange | app/api/admin/broadcast/status/route.ts:28-45 | progress stays in [0, 100] while done <= total, is 100 when all are done and 0 when none are |
| StatusRoute.CeilDiv | app/api/admin/broadcast/status/route.ts:37 | Math.ceil of a quotient: the least integer not below it |
| StatusRoute.Eta | app/api/admin/broadcast/status/route.ts:33-38 | 0 unless something was sent and something is pending; otherwise the ceiling of elapsed * pending / (1000 * (sent + failed)) seconds, or null when that division is by zero |
| StatusRoute.Get | app/api/admin/broadcast/status/route.ts:6-48 | 400 exactly when the id is missing, 404 exactly when there is no status; otherwise the status as read, progress and eta computed from it as ProgressTenths and Eta state, and complete exactly when pending and processing are both 0 |
| StatusRoute.FinishedBroadcastReport | app/api/admin/broadcast/status/route.ts:28-45 | a finished broadcast reports complete, ETA 0 and 100 % |
| StartRoute.Collected | app/api/admin/broadcast/start/route.ts:28-33 | the values the loop adds to the Set number at most one per record |
| StartRoute.DistinctIsEnumeration | app/api/admin/broadcast/start/route.ts:27-35 | Array.from(new Set(xs)) holds every value of xs exactly once and nothing else |
| StartRoute.DistinctKeepsOrder | app/api/admin/broadcast/start/route.ts:35 | a list without repeats comes out of the Set unchanged, order included |
| StartRoute.DistinctAppend | app/api/admin/broadcast/start/route.ts:31 | adding a value to the Set appends it exactly when it was not there already |
| StartRoute.CollectRecipients | app/api/admin/broadcast/start/route.ts:27-35 | the loop over the records computes the specification Recipients |
| StartRoute.RecipientsAreTheRecordFids | app/api/admin/broadcast/start/route.ts:28-35 | the recipients are exactly the parsed truthy fids of the records, each once |
| StartRoute.CollectedMembers | app/api/admin/broadcast/start/route.ts:28-33 | a value is collected exactly when some record's fid parses to it |
| StartRoute.Answer | app/api/admin/broadcast/start/route.ts:16-53 | an error exactly for an invalid message (400 "Missing required message fields") or no recipients (400 "No users found"); otherwise the new id and the number of recipients |
| StartRoute.Post | app/api/admin/broadcast/start/route.ts:11-53 | the response is Answer of the recipients; on an error the store is unchanged; on success the broadcast is enqueued with exactly the recipients |
| ClickRoute.NumberFidValue | app/api/track-notification-click/route.ts:30 | parseInt of a numeric fid is that number |
| ClickRoute.ParseNotifId | app/api/track-notification-click/route.ts:19-27 | split('_') yields an id exactly when the text holds a '_'; the id is the text before the first '_' and holds no '_' |
| ClickRoute.ParseNotifIdUnique | app/api/track-notification-click/route.ts:27 | the prefix before the first '_' is the only id the split can give |
| ClickRoute.NotifIdRoundTrip | app/api/track-notification-click/route.ts:19-27 | the notif value <id>_<fid> parses back to the broadcast id when the id holds no '_' |
| ClickRoute.TrackingLinkLeadsBack | app/api/track-notification-click/route.ts:19-27 | every tracking link the worker builds for a broadcast carries a notif value that the click route parses back to that broadcast's id |
| ClickRoute.Answer | app/api/track-notification-click/route.ts:11-36 | 400 exactly when a parameter is falsy ("Missing parameters") or the notif value has no '_'; otherwise the parsed broadcast id and the fid echoed |
| ClickRoute.Post | app/api/track-notification-click/route.ts:6-36 | the response is Answer; on an error the store is unchanged; otherwise exactly one click is recorded under parseInt(fid) for the parsed broadcast |
| BroadcastAnalytics.FidTextReadsBack | lib/broadcast-analytics.ts:53 | the hash field a click is stored under reads back with parseInt as the fid, and NaN as NaN |
| BroadcastAnalytics.AfterClick | lib/broadcast-analytics.ts:45-62 | a click sets its field to the click time, keeps every other field, and adds one to the click counter; nothing else changes |
| BroadcastAnalytics.RepeatedClick | lib/broadcast-analytics.ts:53-56 | two clicks on one notification keep only the later time but count twice |
| BroadcastAnalytics.TrackNotificationClick | lib/broadcast-analytics.ts:45-62 | only that broadcast's keys change, by AfterClick |
| BroadcastAnalytics.Percent | lib/broadcast-analytics.ts:76-78 | part / whole * 100 exactly for a positive whole, else 0 |
| BroadcastAnalytics.FunnelRates | lib/broadcast-analytics.ts:67-89 | the funnel's sent is the total and delivered is the sent counter; opened is always 0; rates are 0 without a denominator; the delivery rate is within [0, 100] on consistent counters; ctr is clickRate * deliveryRate / 100; repeated clicks push the click rate above 100 |
| BroadcastAnalytics.RateAtMostHundred | lib/broadcast-analytics.ts:76 | a part of a positive whole, as a percentage, lies within [0, 100] |
| BroadcastAnalytics.RatesMultiply | lib/broadcast-analytics.ts:76-78 | with positive sent and total, ctr times 100 equals clickRate times deliveryRate |
| BroadcastAnalytics.ClassifyMatches | lib/broadcast-analytics.ts:100-112 | the category chosen has a matching substring, and no earlier category matches |
| BroadcastAnalytics.ClassifyIsFirstMatch | lib/broadcast-analytics.ts:100-112 | conversely, the first matching category, or Other when none matches, is the one chosen |
| BroadcastAnalytics.CountAdd | lib/broadcast-analytics.ts:114 | counting one more error in category c, reading an absent entry as 0, raises only c's count, adds c to the record, and raises the total by one |
| BroadcastAnalytics.FailedInStep | lib/broadcast-analytics.ts:98-115 | visiting one more failed fid adds it to its own category only |
| BroadcastAnalytics.BreakdownCounts | lib/broadcast-analytics.ts:98-115 | over distinct fids, each category counts its fids, exactly the occurring categories are present, and the counts sum to the number visited |
| BroadcastAnalytics.BreakdownOfAll | lib/broadcast-analytics.ts:94-118 | over every failed fid, in any order, the breakdown counts each category's failed fids and sums to the number of failures |
| BroadcastAnalytics.GetErrorBreakdown | lib/broadcast-analytics.ts:94-118 | each category is present exactly when some failure falls in it, with that many failures, and the counts sum to the size of the failed hash |
| BroadcastAnalytics.BucketThresholds | lib/broadcast-analytics.ts:137-151 | a delay falls in exactly one bucket, at the thresholds of 1, 5 and 30 minutes |
| BroadcastAnalytics.ClicksInStep | lib/broadcast-analytics.ts:135-152 | visiting one more click adds it to its own bucket only |
| BroadcastAnalytics.TallyCounts | lib/broadcast-analytics.ts:135-152 | each bucket counter counts the visited clicks of its bucket, and the four sum to the number visited |
| BroadcastAnalytics.TallyOfAll | lib/broadcast-analytics.ts:123-152 | over every click, in any order, each counter counts the clicks of its bucket and the four sum to the number of clicks |
| BroadcastAnalytics.GetClickTiming | lib/broadcast-analytics.ts:123-161 | each bucket counts exactly the clicks whose delay since the start falls in it, the buckets sum to the number of clicks, and the average is the total delay over the count, or 0 without clicks |
| BroadcastAnalytics.GetBroadcastAnalytics | lib/broadcast-analytics.ts:166-187 | the counters as read (0 for a broadcast without stats), the funnel of those counters, the breakdown with its presence, counts and sum, and the timing with its bucket counts, their sum and the average |
| BroadcastAnalytics.SecondsToClick | lib/broadcast-analytics.ts:218 | Math.floor of the delay in seconds: the whole seconds elapsed, rounded down |
| BroadcastAnalytics.ExportSucceeded | lib/broadcast-analytics.ts:198-203 | the header, then one row per succeeded fid, each once |
| BroadcastAnalytics.ExportFailed | lib/broadcast-analytics.ts:204-209 | the header, then one row per failed fid with its error, each once, in property order |
| BroadcastAnalytics.ExportClicks | lib/broadcast-analytics.ts:210-221 | the header, then one row per click field with its time and whole seconds since the start, each once |
| BroadcastAnalytics.ExportBroadcastData | lib/broadcast-analytics.ts:192-225 | the export of the requested kind; any other kind gives the empty text |
| BroadcastAnalytics.NumberHasNoLineBreak | lib/broadcast-analytics.ts:202 | a fid's text holds no line break |
| BroadcastAnalytics.SuccessRowLine | lib/broadcast-analytics.ts:202 | a success row is exactly one line |
| BroadcastAnalytics.SuccessRowReadsBack | lib/broadcast-analytics.ts:202 | parseInt of a success row is its fid |
| BroadcastAnalytics.SuccessRowsLines | lib/broadcast-analytics.ts:201-203 | the success rows hold one line per fid |
| BroadcastAnalytics.FailedRowLines | lib/broadcast-analytics.ts:208 | a failed row spans one line plus every line break of its unescaped error |
| BroadcastAnalytics.FailedRowReadsBack | lib/broadcast-analytics.ts:208 | parseInt of a failed row is its fid, whatever the error |
| BroadcastAnalytics.FailedRowsLines | lib/broadcast-analytics.ts:207-209 | the failed rows hold one line per fid when no error breaks a line |
| AdminPage.TrimEnd | app/admin/broadcasts/page.tsx:107 | trailing white space removed: a prefix of the input ending in no white space, and everything cut off is white space |
| AdminPage.TrimEmptyIffBlank | app/admin/broadcasts/page.tsx:107-110 | `testFids.trim()` is empty exactly when the input is all white space |
| AdminPage.TrimStartBlank | app/admin/broadcasts/page.tsx:107 | everything trimmed from the front is white space |
| AdminPage.TrimEndBlank | app/admin/broadcasts/page.tsx:107 | the trimmed end is empty exactly when the input is all white space |
| AdminPage.SkipSeparators | app/admin/broadcasts/page.tsx:114 | dropping a run of [,\s] leaves a suffix that does not start with a separator |
| AdminPage.SkippedAreSeparators | app/admin/broadcasts/page.tsx:114 | everything skipped is a separator |
| AdminPage.WordLength | app/admin/broadcasts/page.tsx:114 | the leading token is within the input and non-empty when the input starts with a non-separator |
| AdminPage.WordLengthIsMaximal | app/admin/broadcasts/page.tsx:114 | the leading token holds no separator and is followed by one or by the end |
| AdminPage.TokensAreWords | app/admin/broadcasts/page.tsx:114-116 | after split(/[,\s]+/) and the truthiness filter, every token is non-empty and separator-free |
| AdminPage.WordsCons | app/admin/broadcasts/page.tsx:114-116 | a non-empty separator-free text before such tokens keeps them all tokens |
| AdminPage.StripAppend | app/admin/broadcasts/page.tsx:114 | removing separators distributes over concatenation |
| AdminPage.StripOfSeparators | app/admin/broadcasts/page.tsx:114 | a run of separators vanishes |
| AdminPage.StripOfWord | app/admin/broadcasts/page.tsx:114 | a separator-free text is kept whole |
| AdminPage.StripSkipped | app/admin/broadcasts/page.tsx:114 | skipping leading separators loses no token character |
| AdminPage.StripWord | app/admin/broadcasts/page.tsx:114 | the leading token survives separator removal whole |
| AdminPage.TokensCoverInput | app/admin/broadcasts/page.tsx:114-116 | the tokens, concatenated in order, are the input without its separators: nothing is lost or reordered |
| AdminPage.TokensAfterComma | app/admin/broadcasts/page.tsx:114-125 | a leading ", " is skipped |
| AdminPage.TokensAfterSeparator | app/admin/broadcasts/page.tsx:114 | a leading comma or white-space character is skipped by the split |
| AdminPage.WordThenSeparator | app/admin/broadcasts/page.tsx:114 | a token followed by a separator or the end is read in one piece |
| AdminPage.WordLengthOfWord | app/admin/broadcasts/page.tsx:114 | the leading token of word + separator-led rest is exactly the word |
| AdminPage.TokensOfWord | app/admin/broadcasts/page.tsx:114-116 | such a word is the first token and the rest's tokens follow |
| AdminPage.TokensOfJoin | app/admin/broadcasts/page.tsx:114-125 | words joined with ", " split back into the same words |
| AdminPage.TokensOfShortJoin | app/admin/broadcasts/page.tsx:114-125 | the split of zero or one joined word gives it back |
| AdminPage.TokensOfJoinStep | app/admin/broadcasts/page.tsx:114-125 | the split of a longer join is its first word then the split of the rest |
| AdminPage.WordsTail | app/admin/broadcasts/page.tsx:114-116 | the tail of a token list is a token list |
| AdminPage.TrimKeepsToken | app/admin/broadcasts/page.tsx:115 | `.map(f => f.trim())` leaves every token as it is |
| AdminPage.Numbers | app/admin/broadcasts/page.tsx:118 | the NaN filter keeps at most one number per value |
| AdminPage.NumbersAppend | app/admin/broadcasts/page.tsx:118 | the filter keeps order: it distributes over concatenation |
| AdminPage.NumbersMembers | app/admin/broadcasts/page.tsx:118 | a number is kept exactly when some value parses to it |
| AdminPage.NumbersOfAllSome | app/admin/broadcasts/page.tsx:118 | when every value is a number all are kept, repeats and order included |
| AdminPage.TokenFidsMembers | app/admin/broadcasts/page.tsx:113-118 | a fid is in the parsed list exactly when some token parses to it |
| AdminPage.FidListRoundTrip | app/admin/broadcasts/page.tsx:113-125 | the fid list the confirmation message shows, typed back into the box, parses to the same list, repeats and order included |
| AdminPage.FidTextIsToken | app/admin/broadcasts/page.tsx:113-125 | the decimal text of a fid as the message shows it is one non-empty token that trims to itself and parses back to that fid |
| AdminPage.BlankHasNoFids | app/admin/broadcasts/page.tsx:107-118 | a blank input yields no tokens and no fids |
| AdminPage.HandleBroadcastToSelected | app/admin/broadcasts/page.tsx:102-126 | "enter title and body" exactly when one is empty; "enter FID(s)" exactly when both are set and the input is blank; confirmation exactly when both are set and some fid parses, with the parsed list; otherwise "No valid FIDs found" |

## Left out

- Transport: `sendNotificationWithRetry`, with its retries, backoff and timeouts, is the parameter `send`. Its internals are not part of this model.
- Adaptive delay, sleep and progress logging in the worker (`getAdaptiveDelay`, `setTimeout`, the status read every 10 fids) change no stored state and are left out.
- Message TTL: the 180-day expiry of the message key is not modelled, so a message never expires.
- Concurrency: each store helper is modelled as one atomic step. Interleaving between concurrent workers or routes, and partial failure between the Redis commands of one helper, are not modelled.
- Exceptions: only the transport may throw. A store command that throws after line 74 of the worker, which would make the catch block settle the fid a second time, is not modelled. The 500 responses of every route and the error-swallowing `catch` of `getBroadcastStatus` and `trackNotificationClick` are left out for the same reason.
- Floating point: the status route's progress and ETA, the funnel's rates and the average time to click are computed exactly over the rationals, not in IEEE doubles.
- `toISOString` in the click export is the parameter `formatDate`.
- `Date.now()` readings are parameters: `idClock`, `startClock` and `now`.
- JSON encoding of the message: `GetBroadcastMessage` returns the stored message as is, so `JSON.parse(JSON.stringify(m))` is taken to give back `m`.
- BroadcastQueue.Store.GetBroadcastStatus, BroadcastQueue.Store.GetBroadcastMessage and BroadcastQueue.Store.IsBroadcastActive are plain reads with no contract of their own. What they return is stated by `BroadcastQueue.StatusOf` and used by the routes.
- `redis.keys('constellation:*')` and `hgetall` of each record in the start route become the parameter `records`: each record's `fid` field, in the order the store lists the keys. The other record fields and `lib/database.ts` are not part of this model. The body's `testFids` is not modelled because the start route never reads it.
- StartRoute.Post: a record whose fid does not parse puts NaN into the Set in the source; the model skips such records, so NaN never becomes a recipient. In the source that NaN raises `totalUsers` by one, and when the worker later pops it, `parseInt("NaN")` is NaN and `if (!fid) break` stops the loop there, as a popped 0 does (`WorkerRoute.DrainStopsAtZero`).
- ClickRoute.Post: a non-string `notifId` (which makes `split` throw) and a non-integer numeric `fid` are not modelled; `notifId` is a text and a numeric fid an integer.
- The click route's two store writes (HSET, then HINCRBY) are one step.
- Common.Enumerate: SMEMBERS of the succeeded set and the fields of the clicks hash are listed in an order the model leaves open. For the clicks hash, JavaScript's Object.entries and Object.values list the integer-like fid texts first, in ascending order; the model does not pin that down (the failed hash, keyed by numbers, does get that order through Common.EnumerateFids).
- JavaScript numbers are doubles. The model's fids and counters are unbounded integers, so Common.ParseIntOfIntToString and AdminPage.FidListRoundTrip hold in the source only for fids below 2^53 in magnitude, and `String(n)` switches to exponent notation from 1e21 on, which the model's decimal text does not.
- BroadcastQueue.Store.GetBroadcastHistory takes the limit as an argument; the default of 50 is the constant `DefaultHistoryLimit`.
- BroadcastAnalytics.GetErrorBreakdown: the source's object lists the categories in the order they are first met, and that is the key order of the JSON reply; the model's map of counts does not keep that order.
- BroadcastAnalytics.GetClickTiming: the average is stated for the enumeration order the store chose. The sum does not depend on that order, but the model does not prove so.
- The funnel's `opened` field is named `opens`.
- Admin page: the confirmation dialog, the `fetch` calls to the start and worker routes, status polling, and React state are left out. The page's other handlers and its rendering are not part of this model.
- History and details routes, the notification library, and the other files of the repository are not part of this model.
