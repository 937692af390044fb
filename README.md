# LinkedIn outreach automation: a Dafny model of its core

The system drives a browser through LinkedIn. It searches for people, sends
connection requests with a short note, and sends follow-up messages to
people who accepted. A SQLite ledger records every request and message, so
that no profile is contacted twice and a daily quota on requests holds.

This project models five parts of that core:

- **Storage** (`storage.dfy`): the outreach ledger. The two tables
  `sent_requests` and `message_records` are held as sequences of rows in
  rowid order. They keep the `UNIQUE(profile_url)` constraint and the
  `ON CONFLICT IGNORE` key on messages. The model covers every query the
  Go methods run.
- **Connection** (`connection.dfy`): the connection gate. It checks, in
  order, that the browser is launched, that no request exists for the
  profile, and that the daily quota is not reached. Then come the platform
  steps, with the note cut to 300 bytes on the "Add a note" path. The
  ledger is written only after every platform step has succeeded.
- **Messaging** (`messaging.dfy`): template substitution in Go's map
  iteration order, the follow-up gate with the same write-last discipline,
  and detection of accepted connections that still wait for a message.
- **Search** (`search.dfy`): the search URL built from the criteria, the
  profile-link test, and the visited set that deduplicates profiles across
  result pages and across calls.
- **Stealth** (`stealth.dfy`): the bounded-random arithmetic. This covers
  the delay range, the spoofed fingerprint, and the clamped scroll loop.

`scenarios.dfy` proves, over a fresh ledger, the outcome of three call
sequences: the quota refusing a third request, a duplicate request, and the
follow-up queue.

Modelling conventions:

- A Go `string` is `seq<char>` with one element per byte, so `len(note)`
  and `note[:300]` keep their meaning.
- Time is a `Clock` value: the current instant plus the bounds of the local
  day.
- A database engine failure is a `bool` parameter of each ledger operation.
  When it is set, the statement fails and nothing changes.
- What a page offers is a datatype of booleans, one per CSS selector the
  code queries. A rod `Must*` call that finds nothing panics; the model
  returns that as an error after which nothing else happens.
- Random draws are parameters, each constrained to the range `math/rand`
  guarantees for it.
- Go's map iteration order in `applyTemplate` is a parameter `order`, which
  lists each key once.
- `url.QueryEscape` is a parameter `escape`.
- `url.Parse` is represented by its outcome, carried on each link element.

## Model

| member | source | states |
|---|---|---|
| Storage.ParseStatus | storage/storage.go:15-20 | a `status` text reads back as a status only when that status is stored as exactly that text |
| Storage.StatusRoundTrip | storage/storage.go:15-20 | each of the four statuses reads back as itself, so no two statuses share a stored text |
| Storage.FindRequest | storage/storage.go:111-124 | the row found has the URL asked for and is in the table; nothing is found exactly when no row has that URL |
| Storage.FindRequestUnique | storage/storage.go:65 | under the UNIQUE constraint, the lookup returns exactly the one row that has the URL |
| Storage.WithStatus | storage/storage.go:127-134 | `UPDATE ... WHERE profile_url = ?`: same number of rows; rows with the URL get the new status; every other row is unchanged |
| Storage.UpdateUnknownIsNoOp | storage/storage.go:127-134 | updating a URL that has no row changes nothing |
| Storage.UpdateIdempotent | storage/storage.go:127-134 | running the same status update twice equals running it once |
| Storage.UpdateKeepsURLs | storage/storage.go:65 | a status update keeps profile URLs unique |
| Storage.UpdateThenFind | storage/storage.go:111-134 | after an update, the lookup returns the same row with only its status changed |
| Storage.CountInWindow | storage/storage.go:141 | the count is 0 exactly when no row is in the window, and equals the row count exactly when all rows are |
| Storage.CountIsWindowSize | storage/storage.go:141 | `COUNT(*)` equals the size of the set of rows whose `sent_at` lies in `[today, tomorrow)` |
| Storage.AppendCount | storage/storage.go:101-108 | inserting a row raises the day's count by one when its timestamp is in the window, by zero otherwise |
| Storage.URLsWithStatus | storage/storage.go:178 | a URL is selected exactly when some row has that URL and the given status |
| Storage.URLsWithStatusDistinct | storage/storage.go:65 | under the UNIQUE constraint, the selected URLs contain no duplicates |
| Storage.LatestMessage | storage/storage.go:162 | `ORDER BY sent_at DESC LIMIT 1`: none exactly when the profile has no message; otherwise a row for the profile whose `sent_at` is the latest |
| Storage.LatestAfterAppend | storage/storage.go:151-174 | after a message is saved, the latest message for its profile is no earlier than the one saved |
| Storage.AcceptedWithoutMessage | storage/storage.go:198-202 | the LEFT JOIN ... IS NULL selects a URL exactly when it has an accepted request and no message row |
| Storage.AcceptedWithoutMessageDistinct | storage/storage.go:65 | the follow-up queue contains no duplicates |
| Storage.SaveMessageDequeues | storage/storage.go:197-219 | saving a message removes its profile from the follow-up queue and leaves the rest of the queue in order |
| Storage.Storage.constructor | storage/storage.go:46-93 | a fresh ledger has both tables empty |
| Storage.Storage.SaveSentRequest | storage/storage.go:101-108 | an engine fault fails and changes nothing; an existing URL fails with the UNIQUE violation and changes nothing; otherwise the row is appended with the next rowid |
| Storage.Storage.GetSentRequestByProfileURL | storage/storage.go:111-124 | an engine fault is an error; otherwise the result is the row for the URL, and nil exactly when none exists |
| Storage.Storage.UpdateRequestStatus | storage/storage.go:127-134 | an engine fault changes nothing; otherwise every row with the URL takes the status and the call succeeds even when no row matches |
| Storage.Storage.GetCountOfSentRequestsToday | storage/storage.go:137-148 | an engine fault is an error; otherwise the result is the number of rows sent in the current day, at most the table size |
| Storage.Storage.SaveMessageRecord | storage/storage.go:151-158 | an engine fault changes nothing; a duplicate `(profile_url, message, sent_at)` is ignored without error; otherwise the row is appended |
| Storage.Storage.GetMessageRecord | storage/storage.go:161-174 | an engine fault is an error; otherwise the result is the latest message for the profile, and nil exactly when there is none |
| Storage.Storage.GetProfileURLsWithPendingRequests | storage/storage.go:177-194 | the rows scanned are exactly the URLs whose status is pending |
| Storage.Storage.GetProfilesWithAcceptedRequestsWithoutMessage | storage/storage.go:197-219 | the rows scanned are exactly the accepted URLs that have no message |
| Connection.TruncateNote | connection/connection.go:80-83 | the note sent is at most 300 bytes and is a prefix of the note; a short note is kept whole; a long one is cut to exactly 300 bytes |
| Connection.ConnectionRequester.constructor | connection/connection.go:22-28 | a new requester has the default daily limit of 100 and no page |
| Connection.ConnectionRequester.CheckGate | connection/connection.go:32-53 | the gate lets the call through exactly when the browser is launched, both lookups succeed, the profile has no request and today's count is below the limit; each refusal returns its own error, and a duplicate returns nil |
| Connection.ConnectionRequester.SendInvitation | connection/connection.go:55-106 | a missing connect button, a panicking selector or a failed save leave the ledger unchanged with their own error; success appends one Sent row, with the note cut to 300 bytes on the note path and kept whole on the direct path |
| Connection.ConnectionRequester.SendConnectionRequest | connection/connection.go:31-110 | a refused gate changes neither page nor ledger; the ledger gains a row exactly when the gate passes, every platform step succeeds and the save succeeds; a call never lifts today's count past the daily limit |
| Messaging.ReplaceAll | messaging/messaging.go:111 | replacing a non-empty pattern by a text of the same length keeps the length; by a text no longer than it never lengthens the string |
| Messaging.ReplaceAllAbsent | messaging/messaging.go:111 | `strings.ReplaceAll` leaves a string without the pattern unchanged |
| Messaging.ReplaceAllSelf | messaging/messaging.go:111 | replacing a pattern by itself is the identity |
| Messaging.Placeholder | messaging/messaging.go:111 | `{{key}}` is the key plus four bytes |
| Messaging.SubstituteNoPlaceholders | messaging/messaging.go:108-114 | a template with none of the placeholders comes back unchanged |
| Messaging.IterationOrderMatters | messaging/messaging.go:110 | when one value contains another key's placeholder, the two iteration orders give different messages |
| Messaging.ApplyTemplate | messaging/messaging.go:108-114 | the loop computes the substitution in the given iteration order; an empty map gives the template; one entry gives that single replacement |
| Messaging.Messenger.constructor | messaging/messaging.go:22-27 | a new messenger has no page |
| Messaging.Messenger.CheckGate | messaging/messaging.go:32-44 | the gate passes exactly when the browser is launched, the lookup succeeds and no message exists; a duplicate returns nil |
| Messaging.Messenger.SendMessage | messaging/messaging.go:58-101 | each missing button or input returns its own error and leaves the ledger unchanged; success appends one message row with the substituted text and the template |
| Messaging.Messenger.SendFollowUpMessage | messaging/messaging.go:31-105 | the message table gains a row exactly when the gate passes, every platform step succeeds and the save succeeds; the request table never changes |
| Messaging.Messenger.DetectNewConnections | messaging/messaging.go:117-124 | a failed query is wrapped as an error; otherwise the result holds, without duplicates, exactly the accepted profiles that have no message |
| Search.Pairs | search/search.go:171 | one pair per value, the i-th being `key=` followed by the escaped i-th value |
| Search.Encode | search/search.go:171 | the query is empty exactly when no key has a value; otherwise it opens with the escaped pair of the first key, in sorted order, that has a value |
| Search.AppendAfterNonEmpty | search/search.go:160-167 | after a job title, the keywords are joined to it with single spaces |
| Search.AppendFromEmpty | search/search.go:160-167 | with no job title, non-empty keywords are joined with single spaces |
| Search.SearchParams | search/search.go:149-169 | company and location appear once when set; `keywords` holds at most one value, and exactly one when keywords are given: the job title alone, the job title and the keywords joined by spaces, or, with no job title, the non-empty keywords joined by spaces |
| Search.BuildSearchURL | search/search.go:145-172 | the URL is the base URL followed by the sorted, escaped encoding of those parameters; empty criteria give the bare base URL |
| Search.IsProfileURL | search/search.go:175-178 | a URL passes exactly when it is one of the two bare prefixes `/in/` and `/pub/` |
| Search.LinkPassesIffBarePath | search/search.go:175-178 | a link built from a path passes exactly when the path is `/in/` or `/pub/` |
| Search.ProfileLink | search/search.go:96-113 | an unreadable, empty or unparsable `href` is skipped; otherwise the link is the site origin followed by the path |
| Search.LinkIgnoresQueryAndFragment | search/search.go:113 | query and fragment of an `href` do not change the profile link |
| Search.Harvest | search/search.go:96-121 | no more profiles are found than there are links |
| Search.HarvestFresh | search/search.go:115-120 | the profiles found are distinct, were not visited before, and pass the profile-URL test |
| Search.HarvestMembers | search/search.go:96-121 | a URL is found exactly when it was not visited, passes the test, and some link leads to it |
| Search.ScrapedPages | search/search.go:77-128 | no more pages are scraped than exist; the first page is scraped whenever the limit allows one; a first page that ends the search is the only one scraped |
| Search.ScrapedShape | search/search.go:77-138 | the scraped pages are a prefix of the result pages, at most the page limit, none if the limit is not positive, and every page before the last leads on |
| Search.AtMostTwoProfiles | search/search.go:116-118 | a searcher's visited set plus the new profiles number at most two |
| Search.Searcher.constructor | search/search.go:22-27 | a new searcher has an empty visited set |
| Search.Searcher.HarvestPage | search/search.go:96-121 | the loop over one page's link elements extends the found list to the harvest of all links so far and adds exactly those profiles to the visited set |
| Search.Searcher.ScrapeResultPages | search/search.go:77-138 | the loop returns the harvest of the links of the scraped pages and adds them to the visited set |
| Search.Searcher.SearchUsers | search/search.go:39-141 | without a browser it fails and changes nothing; otherwise it returns the fresh profile links of the scraped pages, without duplicates and none visited before, adds them to the visited set, and returns at most two in a searcher's lifetime |
| Stealth.RandomDelay | stealth/stealth.go:70-73 | the delay lies in `[min, max]` |
| Stealth.RandomDelayCoversRange | stealth/stealth.go:71 | every delay in `[min, max]` is produced by some draw |
| Stealth.ApplyPageStealth | stealth/stealth.go:21-66 | it fails exactly when the script eval fails; otherwise the fingerprint has a listed user agent and platform, a width in 1024..1223 and a height in 768..917 |
| Stealth.EveryPlausibleFingerprintReachable | stealth/stealth.go:21-66 | every fingerprint within those ranges is produced by some draws |
| Stealth.Step | stealth/stealth.go:101-106 | a step is positive, never overshoots the distance, is at most 75 pixels, and is at least 50 unless it ends the scroll |
| Stealth.SumAppend | stealth/stealth.go:112 | the scrolled total grows by each step |
| Stealth.PlanShape | stealth/stealth.go:99-116 | the planned steps cover the remaining distance exactly, in steps of at most 75 pixels, all but the last at least 50 |
| Stealth.SimulateHumanScroll | stealth/stealth.go:94-118 | the steps taken are the plan up to the first failed eval; with no failure the total is exactly the distance; a failure stops short of it; nothing scrolls for a distance that is not positive |
| Scenarios.FirstRequest | connection/connection.go:31-110 | a first request over a fresh ledger succeeds and records one Sent row with its note |
| Scenarios.FillQuota | connection/connection.go:31-110 | two requests to different profiles both succeed and are recorded in order |
| Scenarios.QuotaScenario | connection/connection.go:47-53 | with a daily limit of two, the third request is refused with the limit and the count, and the ledger counts two for today |
| Scenarios.DedupScenario | connection/connection.go:37-44 | a second request to the same profile returns nil and the ledger keeps the first note |
| Scenarios.FollowUpScenario | messaging/messaging.go:31-124 | an accepted profile is queued for a follow-up until its message is saved, and then leaves the queue |

## Left out

- Authentication, configuration loading and the `main` orchestration are not part of this model.
- Browser launch, page creation, navigation waits and the logging calls are left out. They are I/O on the rod driver.
- `SimulateHumanTyping`, `SimulateHumanClick`, `HumanLikeMouseMove` and `ApplyStealth` are left out: they only sleep and forward input to the browser.
- `time.Sleep` is left out; `RandomDelay` returns the delay it would sleep for.
- The scroll-to-bottom loop of `SearchUsers` (search/search.go:81-90) and the stealth re-application and delays around navigation are left out. They do not affect which profiles are returned.
- Search.Searcher.SearchUsers: the result pages are given as a sequence, which must hold at least the page limit's worth of pages. A live site always serves another page.
- Search.Searcher.SearchUsers: a `Must*` panic during the search is not modelled; the model assumes every selector of the search page resolves.
- Timestamps are integers. Formatting `time.Time` into SQLite `DATETIME` text, comparing that text, and time zones are left out. "Today" is the `Clock`'s window.
- SQLite errors are one generic engine fault per statement. Errors while scanning individual rows are folded into it.
- The order of rows returned without `ORDER BY` is taken to be rowid order. Ties on `sent_at` in `GetMessageRecord` resolve to the earliest row.
- Reopening an existing database file, `Close`, and the errors of `NewStorage`/`InitDB` are left out; a new ledger starts empty.
- Messaging.ApplyTemplate: Go's map iteration order is random, so it is a parameter. `IterationOrderMatters` shows the result can depend on it.
- Connection.TruncateNote: the cut is at 300 bytes and may split a multi-byte UTF-8 character, as the source does; encodings are not modelled.
- Stealth.RandomDelay: `int64` overflow of `max-min+1` is not modelled.
- Stealth.Step: the speed factor is a real in `[1.0, 1.5]`, which covers float rounding up to 1.5. Floating-point rounding of the product is otherwise not modelled.
- The source's own notes describe some behaviours differently from what the code does. This model follows the code:
  - `UpdateRequestStatus` on an unknown profile succeeds silently.
  - No code path writes a `pending` request, so the pending query returns the empty list for every ledger the code can produce.
  - A duplicate request or message returns nil rather than a distinct error.
  - The search loop goes to the next page only when the "Next" button exists and is disabled (search/search.go:125). Any other page ends the search.
  - `isProfileURL` compares for equality with the two bare prefixes (search/search.go:177). Real profile links therefore never pass it.
