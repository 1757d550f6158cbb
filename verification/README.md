# Verified model of the TicketButler proxy

The proxy fetches the orders of a conference, summarises them for spreadsheets, keeps the result as a snapshot and
serves it. The Dafny files beside this one model what that promise depends on and prove it:

- **The refresh/read protocol** (`Protocol.dfy`, `RefreshService.dfy`, `MemoryStore.dfy`): any number of Refresh and Current
  calls interleaved at every lock and store boundary. The cache can go backwards; it is proved exactly when, how often
  at most, and that this bound is reached. The Refresher object and the handlers are classes with the source's fields.
- **The aggregation** (`Strings.dfy`, `Sizes.dfy`, `TicketButler.dfy`, `Aggregate.dfy`, `SummaryLaws.dfy`,
  `Sorting.dfy`, `SponsorList.dfy`): the nested loops, each map entry characterised on its own, merging, permutation and
  conservation over exact reals, and the sponsor list as the only list of its kind.
- **Parity with the old script** (`Payload.dfy`, `Legacy.dfy`): the Apps Script aggregation run on the raw JSON gives the
  numbers the Go port gives. Arithmetic is an uninterpreted parameter on both sides, so equal means bit for bit.
- **Codecs and parsers** (`Decimals.dfy`, `GoJson.dfy`, `SnapshotStore.dfy`, `Restart.dfy`, `Rounding.dfy`, `Config.dfy`):
  JSON by struct schema, two-decimal amounts, the stored snapshot, what a restart finds and when its orders still add up to
  its summary, and the comma-separated settings.
- **The fixture anonymiser** (`Anonymizer.dfy`, `FixtureScript.dfy`, `FixtureFidelity.dfy`, `FixturePrivacy.dfy`,
  `FixtureIds.dfy`, `FixturePersons.dfy`): the tree rewrite keeps every number of the summary, and forgets exactly what is said.
- **The retry loop** (`Client.dfy`) over arbitrary outcomes, with 64-bit backoff and a bound on the whole fetch.
- **The spreadsheets** (`SponsorSheet.dfy`, `Mailing.dfy`, `MailRuns.dfy`, `TicketSheet.dfy`, `SheetTotals.dfy`,
  `MerchTotals.dfy`): sponsor mailing over any sequence of runs with failures, and the cells the ticket numbers are written
  to and when they add up.

Clocks, the network, the hash, drafts, discount codes and failures are parameters: a result holds for every way they answer.
`dafny verify dfyconfig.toml` checks everything.

## Where the code differs from what is said about it

- The comments at the head of `testdata/anonymize.py` say that every piece of personal data is replaced anywhere in the
  document. `scrub` does that below the nodes it is given, but `main` gives it only the tickets and four fields of an order.
  A personal value directly on an order or on the payload is copied. `FixturePrivacy.ForgetsIff` states the exact condition
  and `FixturePrivacy.OrderNameIsCopied` shows an input. An identifier there is copied too, so it no longer agrees with the
  same one on a ticket: `FixtureIds.IdentifierInFixture` says which are rewritten and `FixtureIds.EventComesApart` shows one.
- The parity notes say both implementations do the same. The old script counts every T-shirt answer of a ticket, the port
  only the first; `Legacy.LegacyParity` states exactly when that shows.
- Dated rows of the SPONSORS sheet are not quite final: `processPaidSponsors` fills a missing code into them.
  `MailRuns.DatedRowFinalIff` says which rows are final. None is ever mailed again.
- The community run starts at row 5 of the sheet and the paid runs at row 4, so a community sponsor in row 4 is never mailed
  (`MailRuns.RowFourNeverMailed`).
- Column F of REALIZED need not add up to the tickets: a row no group lands on keeps the count of an earlier update, and groups
  can miss or share rows. `SheetTotals.ColumnAddsUp` states the exact balance and `SheetTotals.StaleCount` shows an input.
- A snapshot's summary and its orders can disagree after a restart when an amount has more than two decimals.
  `Rounding.SummaryKeptIff` states exactly when, for any number of tickets, and `Rounding.WholeTotalsKeptIff` ticket by
  ticket when the totals are in whole cents. `Restart.SmallPayloadChanges` shows an input and `Rounding.CancellingKept` one
  where two roundings cancel out.
- A row of the merchandise block need not add up to the garments sold: of two products with one normalised name the second
  is shown nowhere. `MerchTotals.RowAddsUp` states the exact balance and `MerchTotals.HoodieHidden` shows an input.
- A group named like something that JavaScript objects inherit, such as `constructor`, is missing from what the old script
  puts out (the contract of `Legacy.LegacyIncome`). The port has it.

## Model

| member | source | states |
|---|---|---|
| `Protocol.Reachable` | internal/snapshot/refresher.go:42-103 | in every reachable interleaving at most one call holds the refresh lock, and no version in cache, store or call is newer than the last one built |
| `Protocol.CacheStaysSet` | internal/snapshot/refresher.go:85-103 | once set, the cache is never empty again, over any run |
| `Protocol.FallsOnlyAtColdFill` | internal/snapshot/refresher.go:85-103 | the only step that can put an older version over a newer one is the cache write of a Current call that saw an empty cache |
| `Protocol.FallsBounded` | internal/snapshot/refresher.go:52-103 | from any reachable state with a set cache, the falls still to come plus the cold readers still in flight never exceed the cold readers in flight now |
| `Protocol.FallsOfWholeRun` | internal/snapshot/refresher.go:52-103 | over a whole run from a process start, the falls are at most the cold readers in flight when the cache was first set |
| `Protocol.FallsAttained` | internal/snapshot/refresher.go:52-103 | the bound is exact: from every such state some continuation falls once per cold reader |
| `Protocol.MonotoneIffNoColdReader` | internal/snapshot/refresher.go:52-103 | the cached version can only move forward in every continuation if and only if no cold reader is in flight |
| `Protocol.WarmFills` | internal/snapshot/refresher.go:108-119 | a Warm call that runs before any request fills the cache exactly when the store holds something that decodes |
| `Protocol.ReadStep` | internal/snapshot/refresher.go:85-103 | with no cold reader in flight every single step moves the cache forward or not at all, and a read it completes serves at least the version cached before |
| `Protocol.ReadsAreAtLeastAsNew` | internal/snapshot/refresher.go:85-103 | after the cache holds a version, with no cold reader in flight, a Current call that has not read the cache yet serves that version or a later one, whatever runs in between |
| `Protocol.WarmedRunServesNew` | cmd/tbproxy/main.go:137-139 | for every run from a process start that Warm filled: a Current call made after a refresh published serves the published version or a later one, whatever ran before, between and after |
| `Protocol.StoreIsLastSaved` | internal/snapshot/refresher.go:65-81 | the store is always the last version whose Save succeeded, cold readers or not |
| `Protocol.WarmedCacheAndStore` | cmd/tbproxy/main.go:137-139 | in every run of a warmed process, whenever the refresh lock is free the cache is the last version built and the store the last one saved, after any failed fetches and saves |
| `Protocol.RefreshReturnsOwnFetch` | internal/snapshot/refresher.go:47-63 | refreshes are not coalesced: what a Refresh call returns was built after the call was made |
| `Protocol.OutcomeDecides` | internal/snapshot/refresher.go:52-81 | while a refresh holds the lock and no cold reader writes, cache and store are what its own progress says, however many other calls run meanwhile |
| `RefreshService.CodeDecides` | internal/httpapi/handlers.go:95-128 | for a snapshot that is new to cache and store: 200 iff both now hold it, 207 iff only the cache does, 502 iff neither changed |
| `RefreshService.CodeDecidesAmongOthers` | internal/httpapi/handlers.go:95-128 | the same both ways among any number of concurrent calls, while no cold reader writes, with no side condition on the snapshot |
| `RefreshService.CodeDecidesInProtocol` | internal/httpapi/handlers.go:95-128 | a refresh that runs alone ends in the protocol with the very code the handler answers with, and the code decides both ways what cache and store hold |
| `RefreshService.ServedAfterRefresh` | internal/httpapi/handlers.go:133-147 | after a 200 or a 207 every read serves the refreshed snapshot even if the store can no longer be read |
| `RefreshService.AfterRestart` | internal/snapshot/refresher.go:75-103 | an emptied cache finds, after a 200, whatever decoding makes of the encoded snapshot, and after a 207 whatever was stored before |
| `Restart.RestartServes` | internal/snapshot/refresher.go:75-103 | so a reader after a restart is served the refreshed snapshot with its amounts reread, and after a 207 the older one |
| `RefreshService.HealthyUnlessBroken` | internal/httpapi/handlers.go:16-37 | health is 503 exactly when data endpoints answer 500; the two disagree only while nothing was ever stored |
| `RefreshService.Refresher.Refresh` | internal/snapshot/refresher.go:52-81 | new cache, new stored bytes and result for every fetch, encoding and save answer; a failed save still publishes |
| `RefreshService.Refresher.Current` | internal/snapshot/refresher.go:85-103 | serves the cached snapshot, else what the stored bytes decode to, which becomes the cached one; every error leaves the cache alone |
| `RefreshService.Refresher.Warm` | internal/snapshot/refresher.go:108-119 | an empty cache becomes what the store decodes to or stays empty; the store is never written |
| `RefreshService.Refresher.HandleRefresh` | internal/httpapi/handlers.go:95-128 | the response code together with the new cache and the new stored bytes |
| `RefreshService.Refresher.HandleHealth` | internal/httpapi/handlers.go:16-37 | waiting for a first snapshot is 200, an unreadable or undecodable one 503; a set cache is always 200 |
| `RefreshService.Refresher.SnapshotOr503` | internal/httpapi/handlers.go:133-147 | nothing stored is 503, an unreadable or undecodable snapshot 500, and a snapshot is handed out exactly with 200 |
| `RefreshService.UninterruptedRefresh` | internal/snapshot/refresher.go:52-81 | a Refresh nobody interleaves with has, step by step in the protocol, the effect the method has |
| `RefreshService.UninterruptedCurrent` | internal/snapshot/refresher.go:85-103 | likewise for Current, with an empty, undecodable or unreadable store too |
| `MemoryStore.Memory.Load` | internal/store/memory.go:22-31 | a fresh copy of the stored bytes, or nothing before the first save |
| `MemoryStore.Memory.Save` | internal/store/memory.go:34-40 | the store holds a fresh copy of the bytes, empty ones included |
| `MemoryStore.Overwrite` | internal/store/memory.go:22-40 | overwriting what was passed to Save, and what Load returned, leaves the stored bytes as they were saved |
| `Aggregate.Summarise` | internal/aggregate/summary.go:75-138 | the nested loops over orders and tickets compute the summary as a fold over what each ticket adds, for any arithmetic; it bears schema version 1, the event's id and the number of orders |
| `Aggregate.SplitMerch` | internal/aggregate/summary.go:149-168 | a name is merchandise iff some non-empty pattern is contained in its lower-case form; product and size only then |
| `Strings.ContainsIff` | internal/aggregate/summary.go:149-156 | containing a text means having it somewhere, with something or nothing before and after it |
| `Strings.LowerLetters` | internal/aggregate/summary.go:150 | lower-casing turns the 26 capital letters into the small ones and changes nothing else |
| `Aggregate.SplitRebuildsName` | internal/aggregate/summary.go:161-167 | with a separator in the name, overlapping ones included, the untrimmed halves and the separator rebuild it exactly, the second half holds no separator, and product and size are the halves cleaned |
| `Aggregate.NoSeparatorKeepsName` | internal/aggregate/summary.go:161-165 | without one the name stays whole and no size is tallied |
| `Sizes.NormalizeSizeIsFixed` | internal/aggregate/sizes.go:60-77 | a normalised size is its own normal form, whatever the spelling or blanks |
| `Sizes.SizeSpellings` | internal/aggregate/sizes.go:30-77 | for every string and each of the six sizes: it is counted as that size iff, trimmed and in lower case, it is one of the two spellings of it |
| `Sizes.OneCounts` | internal/aggregate/sizes.go:30-53 | counting one garment changes exactly the field of its size and the total by one, and nothing for an unknown size |
| `Sizes.SizeTally.Add` | internal/aggregate/sizes.go:30-48 | the receiver grows by one garment of that size, and the result says whether the size is known |
| `TicketButler.AnswerFor` | internal/ticketbutler/types.go:138-145 | the search loop finds the answer the specification names |
| `TicketButler.FirstAnswerIsEarliest` | internal/ticketbutler/types.go:136-145 | that answer is the earliest whose trimmed heading is the one asked for |
| `TicketButler.NoAnswer` | internal/ticketbutler/types.go:128-145 | when no heading matches there is no answer |
| `SummaryLaws.SummaryPerKey` | internal/aggregate/summary.go:84-135 | each map entry on its own: a group is present iff a ticket ends in it, its count is the number of those tickets and its income their in-order sum; states, products and sizes likewise; for any arithmetic |
| `SummaryLaws.SummaryOfConcatenation` | internal/aggregate/summary.go:84-135 | the summary of two order lists one after the other is the pointwise merge of their summaries over all maps and tallies |
| `SummaryLaws.MergeCommutes` | internal/aggregate/summary.go:84-135 | that merge is commutative over exact reals |
| `SummaryLaws.MergeAssociates` | internal/aggregate/summary.go:84-135 | and associative |
| `SummaryLaws.OrderPermutation` | internal/aggregate/summary.go:84-88 | any permutation of the orders gives the same summary over exact reals |
| `SummaryLaws.RearrangedTickets` | internal/aggregate/summary.go:88-134 | so does any permutation of the tickets inside each order |
| `SummaryLaws.RearrangedPayload` | internal/aggregate/summary.go:84-135 | and both at once |
| `SummaryLaws.Conservation` | internal/aggregate/summary.go:84-135 | group counts add up to the tickets, states to the orders, and group incomes to the ex-VAT income of all tickets |
| `SummaryLaws.FreeGroupEarnsNothing` | internal/aggregate/summary.go:115-133 | the free group earns exactly 0 unless some cleaned ticket name equals its title |
| `SponsorList.Sponsors` | internal/aggregate/sponsors.go:31-68 | the result is the list of first sponsor tickets per company, field by field, with every company of a wanted ticket in it, in alphabetical order of the lower-cased names character by character |
| `Strings.LessIsEarlier` | internal/aggregate/sponsors.go:64-66 | one string is less than another iff, at the first place where they differ, it has the smaller character or has ended |
| `SponsorList.SponsorListUnique` | internal/aggregate/sponsors.go:64-66 | there is only one such list, so the unstable sort cannot show |
| `SponsorList.CollectedIsFirsts` | internal/aggregate/sponsors.go:40-62 | what the loops collect is exactly the first wanted ticket of each distinct non-blank company, no company twice |
| `SponsorList.SortKeyDecidesCompany` | internal/aggregate/sponsors.go:49-66 | two names with the same untrimmed sort key are the same company, so sort keys are pairwise distinct after deduplication |
| `SponsorList.FirstIffUnseen` | internal/aggregate/sponsors.go:44-53 | the set of seen keys recognises exactly the first ticket of a company |
| `Legacy.LegacyParity` | testdata/parity/legacy.js:19-86 | on every payload both can read, the old script run on the raw JSON and the Go port give the same groups, counts, incomes (for any arithmetic), merchandise and sponsors; the T-shirt tally of the port is at most that of the script, and equal iff no ticket has a second T-shirt answer of a known size |
| `Legacy.LegacyCounts` | testdata/parity/legacy.js:19-72 | the whole first loop of the script against the fold of the port |
| `Legacy.SizesReadAlike` | testdata/parity/legacy.js:7-17 | the script's own normalizeSize and the port's read every spelling alike |
| `Legacy.LegacyMerch` | testdata/parity/legacy.js:25-44 | hoodie detection, splitting and the size object of one ticket |
| `Legacy.LegacyAnswers` | testdata/parity/legacy.js:45-57 | every T-shirt answer of a ticket is counted, not only the first |
| `Legacy.LegacyIncome` | testdata/parity/legacy.js:58-70 | the same comparisons, division and addition in the same order as the port; a new group under a name that objects inherit is not created |
| `Legacy.LegacySponsors` | testdata/parity/legacy.js:75-86 | the company names of the unique sponsor list, in alphabetical order of their lower case |
| `Legacy.TallyOfAnswers` | testdata/parity/legacy.js:46-56 | per ticket: the tally of the port is at most that of the script, and equal iff no later answer has a known size |
| `Legacy.TallyOfTickets` | testdata/parity/legacy.js:45-57 | over all tickets the same, equal iff equal ticket by ticket |
| `Legacy.OneAnswerIsOneSize` | testdata/parity/legacy.js:46-56 | a ticket with at most one T-shirt answer always meets that condition |
| `Payload.PayloadShown` | internal/ticketbutler/types.go:19-145 | the decoded structs show the aggregation exactly what following property names through the JSON shows |
| `Payload.TicketStored` | internal/ticketbutler/types.go:73-94 | a ticket is stored with its fifteen modelled properties, whichever it came with |
| `Payload.OrderStored` | internal/ticketbutler/types.go:24-38 | an order with all of its, but for a missing discount |
| `Payload.PartsStored` | internal/ticketbutler/types.go:41-116 | and so are addresses, order lines and answers |
| `GoJson.RoundTrip` | internal/snapshot/snapshot.go:57-86 | for every schema that points only to strings, amounts and structs and has no raw elements (GoJson.Sensible), and every value whose numbers read back from their own text: decoding its encoding succeeds and gives the value back with each amount as its two-decimal text reads |
| `GoJson.NullIsZero` | internal/ticketbutler/types.go:18-165 | null and missing fields leave the zero value, at any type |
| `GoJson.OtherKindsFail` | internal/ticketbutler/types.go:18-116 | a field takes no JSON value of another kind and no number that does not fit it |
| `GoJson.WrittenKinds` | internal/ticketbutler/types.go:167-171 | amounts are written as strings and other numbers bare |
| `GoJson.AmountReads` | internal/ticketbutler/types.go:153-165 | an amount is a JSON string or a bare number with the value of its text; null, an empty string and "null" are zero |
| `GoJson.ReprintedSame` | internal/ticketbutler/types.go:153-171 | that is the value itself iff every amount in it survives its text |
| `GoJson.NoAmountsSurvive` | internal/snapshot/snapshot.go:19-26 | a value without amounts always survives |
| `Decimals.AmountRoundTrip` | internal/ticketbutler/types.go:153-171 | printing then parsing an amount rounds it to the cent, sign included, and does nothing else |
| `Decimals.ToCentsIsNearest` | internal/ticketbutler/types.go:169-171 | the result is a nearest two-decimal amount, ties go to the even cent, it is the amount itself iff that has at most two decimals, and rounding again changes nothing |
| `Decimals.IntRoundTrip` | internal/config/config.go:158-161 | the decimal text of every 64-bit integer, sign included, parses back to it |
| `Decimals.ParseInt64Iff` | internal/config/config.go:182 | a text parses to a number iff it is digits, perhaps after one sign, that spell it in 64 bits |
| `Decimals.ParseUnsignedIff` | internal/ticketbutler/types.go:159-163 | an unsigned amount parses iff it is digits with at most one point among or around them, and has the usual value whatever the number of decimals |
| `SnapshotStore.StoredAndLoaded` | internal/snapshot/snapshot.go:56-86 | every storable snapshot comes back from its stored bytes with summary, sponsors, time and duration unchanged, and its orders up to two-decimal amounts |
| `SnapshotStore.OrdersSurviveIff` | internal/snapshot/snapshot.go:56-86 | it comes back entirely unchanged iff every amount survives two decimals |
| `SnapshotStore.SummaryDerived` | internal/snapshot/snapshot.go:23-24 | nothing the service computes holds an amount, so none of it is rounded |
| `Restart.Build` | internal/snapshot/snapshot.go:29-37 | a snapshot holds the summary and the unique sponsor list of the very orders it holds |
| `Restart.DecodedHasType` | internal/ticketbutler/types.go:19-116 | decoding any JSON tree into any schema yields a value of that schema, missing and null fields included |
| `Restart.SummaryCountersFit` | internal/aggregate/summary.go:84-135 | no counter of a summary exceeds the number of orders or tickets, so none overflows before those do |
| `Restart.OrdersReprinted` | internal/ticketbutler/types.go:153-171 | of everything the aggregation reads in the orders, storing and loading changes only prices, to what their two decimals say |
| `Restart.LoadedAgain` | internal/snapshot/snapshot.go:29-86 | fetch, build, store, restart, load, for any arithmetic: summary and sponsors as built, orders equal iff all amounts survive; summarising the loaded orders gives the stored summary up to its ticket groups, and the groups too iff each has the count and in-order income it had |
| `Restart.TicketKeptIff` | internal/aggregate/summary.go:112-128 | over exact reals: a ticket posts the same line after a restart iff its total has whole cents and, unless the total is 0 or the name is that of the discounted group, rounding its price does not move it across the total |
| `Rounding.TicketSettles` | internal/aggregate/summary.go:112-128 | over exact reals: whatever rounding does to a ticket, it stays in its group, enters the free group or leaves the discounted one; which of these is a condition on the ticket, and its income moves by the rounding of its total, less VAT |
| `Rounding.GroupCountsIff` | internal/aggregate/summary.go:115-133 | for any payload: after a restart every group has as many tickets as before iff no single ticket changed group, so regroupings never cancel out, iff each ticket meets a condition on its name, price and total |
| `Rounding.SummaryKeptIff` | internal/aggregate/summary.go:84-135 | for any payload: the reloaded orders give the stored summary iff no ticket changes group and the roundings of the totals cancel out within each group |
| `Rounding.WholeTotalsKeptIff` | internal/aggregate/summary.go:84-135 | with totals in whole cents, for any number of orders and tickets: they give it iff rounding shows on no ticket |
| `Rounding.AllKeptSummaryIff` | internal/aggregate/summary.go:84-135 | for any totals: rounding shows on no ticket iff all totals are in whole cents and the summary is kept |
| `Rounding.LoadedSummaryIff` | internal/snapshot/snapshot.go:29-86 | the whole way over exact reals, fetch, build, store, restart, load and summarise again: the stored summary iff no ticket changes group and nothing is left of the roundings in any group |
| `Rounding.CancellingKept` | internal/aggregate/summary.go:131-133 | roundings can cancel: two tickets for 1.004 and 0.996 are both rounded and the summary is kept |
| `Decimals.ToCentsMonotone` | internal/ticketbutler/types.go:169-171 | rounding to cents never turns the order of two amounts round |
| `Restart.SurviveIffWholeCents` | internal/ticketbutler/types.go:169-171 | over exact reals: a value survives iff all its amounts have at most two decimals |
| `Restart.StoringIsIdempotent` | internal/ticketbutler/types.go:153-171 | storing and loading twice is storing and loading once |
| `Restart.SmallPayloadChanges` | internal/ticketbutler/types.go:169-171 | a payload with one ticket for 0.004: it decodes, and its orders, once stored and loaded, do not give the summary stored beside them |
| `Restart.SmallPriceBecomesFree` | internal/aggregate/summary.go:117-122 | what happens there: the ticket is regrouped as a free one |
| `Client.FetchOrders` | internal/ticketbutler/client.go:92-154 | for every script of outcomes: as many calls as the first stopping outcome or the limit allows, one backoff between two calls, and the result the last call decides; in terms of the setting, the limit is itself or 3 when it is not positive, all of its calls are made when none ends the loop, and a call within it that succeeds is what is returned; a configured file is read once and never retried |
| `Client.GoesOnIff` | internal/ticketbutler/client.go:125-144 | the loop goes on exactly after a failure that is no status below 500 and none of 520, 522, 523 and 524, with the context alive and the sleep not cut short |
| `Client.LastIsUnique` | internal/ticketbutler/client.go:112-153 | the number of calls is determined by the script and the limit |
| `Client.LogAlternates` | internal/ticketbutler/client.go:142-150 | calls and sleeps strictly alternate and the k-th sleep is the k-th backoff |
| `Client.FetchedIff` | internal/ticketbutler/client.go:112-153 | the fetch succeeds iff its last call does, iff some call within the limit does and every earlier failure could be retried |
| `Client.BackoffExactIff` | internal/ticketbutler/client.go:147 | in 64-bit arithmetic the k-th backoff is 30s times 2^(k-1) iff k is at most 29 |
| `Client.BackoffGrows` | internal/ticketbutler/client.go:142-147 | the first backoff is 30 s; up to the 29th each is positive and twice the one before; the 30th is negative |
| `Client.FetchTime` | internal/ticketbutler/client.go:92-154 | with at most 30 attempts a whole fetch takes at most attempts * timeout + 30s * (2^(attempts-1) - 1), cut sleeps included |
| `Client.SlowestLog` | internal/ticketbutler/client.go:112-153 | that bound is attained |
| `Config.SplitList` | internal/config/config.go:197-205 | the loop returns the trimmed non-blank parts |
| `Config.ListHoldsEntries` | internal/config/config.go:197-205 | every entry is non-blank, has no blanks around it and no comma in it |
| `Config.ListOfJoin` | internal/config/config.go:197-205 | joining entries with commas and splitting again gives the entries back |
| `Config.ListOfPadded` | internal/config/config.go:197-205 | the same with any blanks written before and after each entry |
| `Strings.TrimCuts` | internal/config/config.go:200 | trimming takes blanks off both ends and nothing else |
| `Config.ListIsStable` | internal/config/config.go:197-205 | writing a parsed list back and reading it again changes nothing |
| `Config.ParseIntList` | internal/config/config.go:179-189 | the integers of all entries, or the first entry that is no 64-bit integer |
| `Config.FirstBadEntry` | internal/config/config.go:181-185 | the entry reported is the first that does not parse |
| `Config.IntListRoundTrip` | internal/config/config.go:179-189 | every list of 64-bit integers comes back from its comma-joined decimals |
| `Config.PaddedIntList` | internal/config/config.go:179-189 | the same with any blanks before and after each number |
| `Config.ParsedInts` | internal/config/config.go:179-189 | a parsed list has one number per entry, each the value of its entry |
| `Config.ParseMerchPatterns` | internal/config/config.go:193-220 | the patterns of the setting, or the default when it is blank, in lower case |
| `Config.PatternsAre` | internal/config/config.go:193-220 | a blank setting gives the one pattern hoodie, any other its own entries in lower case and nothing more |
| `Config.PatternsAreClean` | internal/config/config.go:193-195 | there is always a pattern; each is non-empty, lower-case and has no blanks around it |
| `Config.PatternsIgnoreCase` | internal/config/config.go:193-195 | settings that differ in letter case give the same patterns |
| `Config.MerchIgnoresCase` | internal/aggregate/summary.go:149-159 | merchandise detection is unchanged by letter case in the setting or in the ticket name |
| `Config.EntryMatches` | internal/aggregate/summary.go:149-156 | a name that holds an entry of the setting, in whatever case, is merchandise |
| `FixtureScript.ScrubNode` | testdata/anonymize.py:85-136 | scrub computes the tree rewrite, or stops exactly where Python raises |
| `FixtureScript.ScrubDict` | testdata/anonymize.py:99-136 | so does its loop over a dict it rewrites while reading it, in whatever order the keys come |
| `FixtureScript.HalfwayReads` | testdata/anonymize.py:122-132 | the answer branch may read the half-rewritten dict: variation and heading hold the same strings before and after their own turn |
| `FixtureScript.ScrubFields` | testdata/anonymize.py:150-156 | number, id and the four scrubbed fields of an order |
| `FixtureScript.ScrubTicketList` | testdata/anonymize.py:158-168 | the tickets of an order, with the counter of tickets that keep their repeated arrays |
| `FixtureScript.Anonymise` | testdata/anonymize.py:139-168 | main: the fixture, or nothing where Python raises, with the counter running across orders |
| `FixtureFidelity.ScrubDecodes` | testdata/anonymize.py:85-136 | whatever decodes into a struct whose rewritten fields are strings still decodes after scrubbing |
| `FixtureFidelity.TicketScrubbed` | testdata/anonymize.py:8-10 | a scrubbed ticket keeps type name, prices and answers as the aggregation reads them |
| `FixtureFidelity.TicketPrepared` | testdata/anonymize.py:161-167 | renumbering a ticket and dropping its repeated arrays changes nothing the aggregation reads |
| `FixtureFidelity.OrderScrubbed` | testdata/anonymize.py:146-168 | an anonymised order keeps state, VAT and every ticket as the aggregation reads them |
| `FixtureFidelity.DataDecodes` | testdata/anonymize.py:139-168 | if the port can decode the payload it can decode the fixture |
| `FixtureFidelity.AnonymizedSummary` | testdata/anonymize.py:8-10 | the summary of the fixture is the summary of the real payload except the event id, for any arithmetic and any options |
| `FixturePrivacy.ScrubForgets` | testdata/anonymize.py:85-136 | two trees that differ at any depth only in values under the personal keys, which are named one by one, scrub to the same tree, or both raise |
| `FixturePrivacy.RolesOfKeys` | testdata/anonymize.py:99-136 | which keys scrub replaces: five whatever they hold, five unless empty, two by a hash; below every other key it searches on |
| `FixturePrivacy.NoTicketsIff` | testdata/anonymize.py:146-159 | which values in place of the tickets or the orders count as none, and which make the script fail |
| `FixturePrivacy.ForgetsIff` | testdata/anonymize.py:139-168 | two payloads that differ only under those keys become one fixture iff what main copies unread, directly on an order or the payload, is equal |
| `FixturePersons.AttendeeStands` | testdata/anonymize.py:159-168 | every field at any depth below a ticket of the fixture holds what belongs to the attendee made from that ticket's own place: name and e-mail always, phone and company if there was one, one of four texts for an answer |
| `FixturePersons.BuyerStands` | testdata/anonymize.py:147-156 | likewise the buyer of the order below its address, lines, discount and payment method |
| `FixturePersons.AnswerBecomes` | testdata/anonymize.py:122-132 | a typed answer becomes the e-mail, the company, the name or nothing, by the kind of question and the word mail in its heading |
| `FixturePersons.AnswerFailsIff` | testdata/anonymize.py:121-132 | and it stops the script exactly when heading or kind is asked for its letters and is no string |
| `FixturePersons.EmptyStays` | testdata/anonymize.py:113-135 | an empty phone, company or answer is left as it was |
| `FixturePersons.SeedsDiffer` | testdata/anonymize.py:147-160 | no two tickets share the seed of their person, and none has that of a buyer |
| `FixturePersons.NumbersStand` | testdata/anonymize.py:147-161 | orders are numbered by a hash of their place, tickets by 8000000 and both places |
| `FixturePrivacy.OrderShows` | testdata/anonymize.py:146-156 | the same for one order |
| `FixturePrivacy.OrderNameIsCopied` | testdata/anonymize.py:146-156 | a name standing directly on an order is copied, so such payloads give different fixtures |
| `FixturePrivacy.IdentifierBecomes` | testdata/anonymize.py:57-98 | in a tree given to scrub, an identifier at any depth and under any key becomes one function of its own value |
| `FixturePrivacy.FakeUuidKeepsApart` | testdata/anonymize.py:57-68 | dashing the hash loses nothing: fake ids are equal iff the originals are, when the hash keeps them apart |
| `FixturePrivacy.SharedIdentifiers` | testdata/anonymize.py:57-98 | two identifiers in two trees scrubbed for different people are equal afterwards iff they were |
| `FixtureIds.IdentifierInFixture` | testdata/anonymize.py:139-168 | for every identifier of every payload, by its path from the root: the fixture has it iff nothing on the way is replaced, renumbered or dropped; then it is the made-up one iff the path is a uuid of the payload or of an order or runs through tickets or a scrubbed field, and the real one otherwise |
| `FixtureIds.IdentifiersAgreeIff` | testdata/anonymize.py:57-68 | two identifiers of one payload that the fixture has agree in it iff they did, when both are rewritten or both copied; a copied one equals a rewritten one only if it is its hash |
| `FixtureIds.EventComesApart` | testdata/anonymize.py:150-156 | an order and its ticket that name the same event: in the fixture they do not, unless the id is its own hash |
| `SponsorSheet.Sheet.UpdateSponsorSheetCommunity` | appsscript/Sponsors.gs:16-37 | a row is appended exactly when no row holds the very name |
| `SponsorSheet.Sheet.AddAll` | appsscript/Sponsors.gs:9-11 | a list of sponsors, one after the other |
| `SponsorSheet.Sheet.SendCommunitySponsorCodes` | appsscript/Sponsors.gs:39-75 | rows and outgoing acts of one run for every answer of the outside; the first failure ends the run |
| `SponsorSheet.PaidTier` | appsscript/Sponsors.gs:163-185 | draft, free and reduced tickets of the three paid sponsor types in any letter case |
| `SponsorSheet.Sheet.SendPaidSponsorCodes` | appsscript/Sponsors.gs:141-224 | the same for a paid run, which passes over missing drafts and failed codes |
| `SponsorSheet.Sheet.ProcessPaidSponsors` | appsscript/Sponsors.gs:77-139 | the same for filling in and creating codes |
| `Mailing.MailedAtMostOnce` | appsscript/Sponsors.gs:39-224 | over any sequence of runs and failures: a row gets as many mails as attempts to date it, of which at most one succeeds |
| `Mailing.DatedRowNeverMailed` | appsscript/Sponsors.gs:60-168 | a dated row keeps its date and is never mailed again |
| `Mailing.RowsAreKept` | appsscript/Sponsors.gs:16-224 | over any sequence of runs no row goes away and none loses its sponsor, its date or a code it has |
| `MailRuns.DatedRowFinalIff` | appsscript/Sponsors.gs:16-224 | a dated row never changes again, over all sequences of runs, iff it is among the first three, is no paid sponsor with a name, or filling in would give it nothing new |
| `MailRuns.CompleteMeans` | appsscript/Sponsors.gs:87-125 | where codes are never empty that last part means it has both |
| `MailRuns.DatedRowNeverChanges` | appsscript/Sponsors.gs:16-224 | the one half, for any sequence of runs |
| `MailRuns.FillingChanges` | appsscript/Sponsors.gs:115-125 | the other half: one filling run with nothing failing changes every row that is not complete, date or no date |
| `Mailing.FillingChangesIff` | appsscript/Sponsors.gs:87-125 | its turn in a filling run changes a row, dated or not, iff it has a company and a paid tier, a code is missing, and the cell of the first missing one can be written |
| `Mailing.EveryMailIsRight` | appsscript/Sponsors.gs:60-221 | every mail went to the address in its row with the codes in its row, each created just before it: 5 free for Community, 6 free and 10 reduced for platinum, 4 and 10 for gold, 2 and 4 for bronze |
| `MailRuns.CommunityRunReaches` | appsscript/Sponsors.gs:46-74 | whatever fails: a community run dates a row iff it was due, is row 5 or below, the draft exists, and for every due row down to it code, mail and date all succeed |
| `MailRuns.PaidRunReaches` | appsscript/Sponsors.gs:151-223 | whatever fails: a paid run dates a row iff it was due, its own draft and two codes work, and every row down to it whose codes work gets its mail and its date; drafts and codes of other rows do not matter |
| `MailRuns.ProcessRunFills` | appsscript/Sponsors.gs:77-139 | every row after a filling run, whatever fails: filled in up to its first cell that cannot be written, as far as the run comes; the first such cell ends it |
| `MailRuns.ProcessThenSend` | appsscript/Sponsors.gs:77-224 | a filling run and then a paid run, whatever fails in either: a row is dated iff it was, or its codes as the first run left them work in the second and no row down to it with working codes loses its mail or date |
| `MailRuns.RowFourNeverMailed` | appsscript/Sponsors.gs:55 | a community sponsor in row 4 of the sheet is mailed by no sequence of runs |
| `MailRuns.RepeatAppendsNothingIff` | appsscript/Sponsors.gs:26-36 | repeating a list of sponsors appends nothing iff the sheet now shows each name as it is |
| `MailRuns.KeptNamesAreListed` | appsscript/Sponsors.gs:26-36 | it does when a cell keeps each name that is entered |
| `MailRuns.ChangedNameAddedAgain` | appsscript/Sponsors.gs:26-36 | a name the cell changes is appended again every time, and each new row is due a mail of its own |
| `TicketSheet.UpdateRealizedSheet` | appsscript/TicketSales.gs:29-51 | columns F and G of each row hold the last group in iteration order whose first matching row it is; every other cell is unchanged |
| `TicketSheet.MatchingIsPrefix` | appsscript/TicketSales.gs:116-123 | the four matching rules amount to a prefix test and one short form |
| `TicketSheet.TrimmedTitleMatches` | appsscript/TicketSales.gs:41-42 | trimming the title first makes no difference |
| `TicketSheet.FirstMatchIs` | appsscript/TicketSales.gs:40-49 | the row a group lands on is the first that matches |
| `TicketSheet.WrittenCounts` | appsscript/TicketSales.gs:39-50 | the counts one update writes never exceed the groups' total, and equal it iff no group with tickets is unmatched or overwritten |
| `TicketSheet.WrittenAndLost` | appsscript/TicketSales.gs:39-50 | every ticket is either in the counts written or in a group that does not show |
| `TicketSheet.OwnRowsShowAll` | appsscript/TicketSales.gs:39-50 | in particular when every group finds a row of its own |
| `TicketSheet.FindProduct` | appsscript/TicketSales.gs:84-92 | the first product whose normalised name is that of the column |
| `TicketSheet.ReplaceFirstIs` | appsscript/TicketSales.gs:109-114 | replacing cuts out the first occurrence, or nothing where there is none |
| `TicketSheet.ZipIsDropped` | appsscript/TicketSales.gs:109-114 | names that differ only in the words zip or zipper are compared as one |
| `TicketSheet.UpdateMerchAndTshirtsSheet` | appsscript/TicketSales.gs:53-107 | the T-shirt block, and under each header the sizes of its product or zeros; every other cell is unchanged |
| `SheetTotals.SheetAddsUp` | appsscript/TicketSales.gs:10-51 | from the payload: the counts one update writes never exceed the tickets summarised, and are all of them iff every group with tickets keeps a row |
| `SheetTotals.ColumnAddsUp` | appsscript/TicketSales.gs:29-51 | the whole of column F after an update: the tickets, less those in groups that do not show, plus what stands in rows no group lands on; it is the number of tickets iff these two balance |
| `SheetTotals.ShowOnSheet` | appsscript/TicketSales.gs:10-51 | the same on the grid, before and after the update |
| `SheetTotals.StaleCount` | appsscript/TicketSales.gs:39-50 | two updates after which column F shows two tickets of one: a group that is gone leaves its count behind |
| `MerchTotals.MerchConserved` | internal/aggregate/summary.go:84-106 | per size, the tallies of all products in the summary add up to the garments on the tickets |
| `MerchTotals.RowBalance` | appsscript/TicketSales.gs:72-106 | what one update writes into a row of the merchandise block, plus the garments of products no column shows, is all garments plus those shown again in further columns |
| `MerchTotals.RowAddsUp` | appsscript/TicketSales.gs:53-107 | from the payload: a whole row after an update is the garments of that size, less those no column shows, plus those shown again, plus what stands under empty headers; it is the right total iff these balance, and none is missing iff each product sold has a name, a header with it, and no earlier product of the same normalised name |
| `MerchTotals.ShowMerchOnSheet` | appsscript/TicketSales.gs:53-107 | the same on the grid, before and after the update |
| `MerchTotals.HoodieHidden` | appsscript/TicketSales.gs:109-114 | a Zip Hoodie and a Hoodie have one normalised name: both columns show the first, and the second is nowhere |

## Left out

- HTTP transport, TLS, authentication, header parsing, logging, signals, flags, deployment and `Config.validate`: plumbing without state worth a theorem.
- `internal/store/gcs.go`: a store is one whose Load and Save may fail and whose Save replaces everything; a Save that fails after it wrote is not modelled.
- gzip and JSON text: one opaque pair that undoes itself (`SnapshotStore.Unpacks`), which also stands for staying under the size limit of Decode. JSON itself is a tree without duplicate keys and with case-sensitive names, and an encoding error is only an outcome of the protocol.
- Strings are ASCII as far as letter case, blanks and ordering go; Unicode folding and normalisation are not modelled.
- IEEE-754 rounding, NaN, infinities, and hexadecimal or exponent amounts: parity and the anonymiser hold for any arithmetic, the laws about money for exact reals, where dividing by a zero `1 + vat_rate` gives a placeholder.
- `encoding/json` on floats: that a float64 reads back from its own text is assumed of each number in the value (`GoJson.TextReadable`), as is the trimming of quotes around amounts.
- Nil and empty slices are one value, so `null` against `[]` in the stored JSON is not distinguished.
- `time.Time`: the stored instant is its text. Age and Stale are one subtraction and one comparison.
- Legacy.LegacyParity: payloads on which the script does not throw and both sides read the same numbers; an empty amount, which Go reads as 0 and parseFloat as NaN, is excluded, and so are groups, products and sizes with a name that JavaScript objects inherit (`Legacy.Readable`).
- Restart.LoadedAgain: for any arithmetic, where nothing is known of rounding, so ticket groups are compared one by one; over exact reals `Rounding.LoadedSummaryIff` says it by the tickets.
- SummaryLaws.FreeGroupEarnsNothing: over exact reals, so for an order with a VAT rate of -1, where float64 gives 0/0, it speaks of the placeholder.
- SponsorList.SortSlice: stands for sort.Slice with some sorted permutation; the uniqueness result makes the choice irrelevant.
- FixtureScript.ScrubNode: rewrites values, not shared Python objects; a parsed JSON document shares nothing, so aliasing cannot show.
- FixtureFidelity.AnonymizedSummary: for payloads the script does not raise on and the port can decode, with fewer orders than make the new ticket numbers exceed 64 bits.
- SHA-256, `person` and `fake_phone` are uninterpreted; that a hash keeps two identifiers apart is a hypothesis only where it is needed.
- Client.FetchOrders: one call is one step; its own timeout, with the default of ten minutes, appears only in the time bound.
- SponsorSheet.Sheet.SendCommunitySponsorCodes: a mail that fails is taken not to have been sent, the sheet exists and has six columns, and nobody edits it between runs. The same holds for the other two runs, and a code a filling run writes reads back as written.
- Mail text: which codes a mail carries is modelled, the replacement in the draft is not.
- TicketSheet.UpdateRealizedSheet: the grid has at least seven columns; formulas recalculating after a write are not modelled, and a sum over a column takes a text for 0.
- `appsscript/TbProxy.gs` and `TicketButler.gs`: a simpler retry loop and remote calls.
