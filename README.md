# SortIQ data layer — a Dafny model

SortIQ (the `mailgenius-extension` browser extension) records what it learns about a user's
mail. It keeps four IndexedDB object stores behind the `SortIQDatabase` class: sender profiles
keyed by email, priority history and action patterns under auto-incremented ids, and email
contexts keyed by email id. An analytics dashboard reads the same kind of data from extension
storage. On its first load it migrates the flat list of email analyses into sender profiles and
priority history. It then computes totals, distributions, the top senders and an average priority,
and shows history dates as relative dates ("5m ago", "Yesterday").

This project models that data layer and proves what it promises:

- `database.dfy` models `SortIQDatabase` as a class. It has one field per object store plus the
  two key generators. A keyed store is a sequence kept in ascending key order, because that is
  the order `getAll` returns. An auto-increment store is a sequence of `Row(id, value)` in id order.
  The writing methods (`UpdateSenderProfile`, `AddPriorityHistory`, `RecordAction`,
  `SaveEmailContext`) state the whole new state and keep the invariant `Valid()`. The readers are
  functions over the fields.
- `analytics.js`'s migration is the loop `Analytics.RebuildFromAnalyses`. It is proved to produce one
  profile per distinct sender, in order of first appearance, built from the sender's first analysis.
  Each profile's count is that sender's number of analyses, and the history gets one entry per analysis.
  `BuildAnalytics` and `FormatDate` model the dashboard's statistics and relative dates.
- Shared pieces:
  - `object_store.dfy`: keyed get/put and auto-increment ids.
  - `sorting.dfy`: the stable descending sort JavaScript's `Array.prototype.sort` performs, `slice(0, n)`,
    and the "filter, sort newest first, keep the first n" query every history reader uses.
  - `tally.dfy`: the per-key counting loop both distributions use, and sums over its result.
  - `decimal.dfy`: the decimal rendering of numbers in template strings.

The clock (`Date.now()`, `new Date()`) is the parameter `now`, and `toLocaleDateString` is the
parameter `localeDate`. The migration builds each history entry's `emailId` as the clock in decimal,
a '-', and the text of a random number. The text of the random number for the j-th analysis is
the opaque string `ids(j)`.

Times in `formatDate` are cut into days, hours and minutes with `Math.floor`, which is Dafny's `/`
for a positive divisor. So a timestamp later than `now` (a clock ahead of this one) lands on a
negative day count and is shown as, for example, "-1d ago". The model keeps this behaviour and
states it in `FormatDate`'s contract.

## Model

| member | source | states |
|---|---|---|
| Database.SortIQDatabase.constructor | mailgenius-extension/database/db.js:19-55 | a new database has four empty stores and both key generators at 1, and satisfies the store invariant |
| Database.SortIQDatabase.GetSenderProfile | mailgenius-extension/database/db.js:82-91 | a result is a stored profile with the requested email; no result means no stored profile has that email |
| Database.SortIQDatabase.GetAllSenderProfiles | mailgenius-extension/database/db.js:93-102 | every stored profile, each once, in strictly ascending email order; a profile is returned exactly when looking up its email finds it |
| Database.SortIQDatabase.AllProfilesFound | mailgenius-extension/database/db.js:93-102 | the profiles `getAll` returns are exactly those `get` finds under their own email |
| Database.SortIQDatabase.UpdateSenderProfile | mailgenius-extension/database/db.js:58-80 | the written profile has count = previous count (0 for a new sender) + 1, the new name, importance, time and interaction type, and keeps the old average response time and categories (0 and [] when new); get now finds it; every other sender's profile and all other stores are unchanged |
| Database.UpdateAsWrittenNeverWrites | mailgenius-extension/database/db.js:58-80 | as the code is ordered, the write transaction has committed by the time `put` runs, so every call rejects and writes nothing; the intended update always leaves a profile for the sender |
| Database.UpdateProfilesEffect | mailgenius-extension/database/db.js:62-76 | one update raises the sender's count by one, keeps its response time and categories, and leaves every other sender's lookup unchanged |
| Database.RepeatedUpdates | mailgenius-extension/database/db.js:68 | n updates of the same sender raise its count by exactly n and change no other sender |
| Database.UpdateAddsOneInteraction | mailgenius-extension/database/db.js:68 | each update adds exactly one to the sum of all interaction counts |
| Database.TotalAtLeastSenders | mailgenius-extension/database/db.js:247-248 | since every stored profile has count at least 1, the interaction total is at least the number of senders |
| Database.SortIQDatabase.AddPriorityHistory | mailgenius-extension/database/db.js:105-123 | appends exactly one row under a fresh id (unused by any existing row) with the given fields and timestamp `now`; the id generator advances by one; nothing else changes |
| Database.SortIQDatabase.GetPriorityHistoryBySender | mailgenius-extension/database/db.js:125-138 | returns only that sender's entries, no entry repeated (a sub-multiset of the store), newest first, exactly min(`limit`, number of the sender's entries) of them; no omitted entry of the sender is newer than a returned one |
| Database.SortIQDatabase.GetAllPriorityHistory | mailgenius-extension/database/db.js:140-152 | stored entries only, no entry repeated (a sub-multiset of the store), newest first, exactly min(`limit`, number stored) of them; no omitted entry is newer than a returned one |
| Database.SortIQDatabase.RecordAction | mailgenius-extension/database/db.js:155-172 | appends exactly one action row under a fresh id with the given fields and timestamp `now`; the id generator advances by one; nothing else changes |
| Database.SortIQDatabase.GetActionPatterns | mailgenius-extension/database/db.js:174-186 | stored actions only, no action repeated (a sub-multiset of the store), newest first, exactly min(`limit`, number stored) of them; no omitted action is newer than a returned one |
| Database.SortIQDatabase.GetActionPatternsByCategory | mailgenius-extension/database/db.js:188-198 | exactly the stored actions of that category (both directions), in ascending id order, neither sorted by time nor truncated |
| Database.SortIQDatabase.SaveEmailContext | mailgenius-extension/database/db.js:201-220 | the context is stored under its email id, replacing any earlier one; every other email id's context and the other stores are unchanged; the key order is kept |
| Database.SortIQDatabase.GetEmailContextBySender | mailgenius-extension/database/db.js:222-235 | only that sender's contexts, no context repeated (a sub-multiset of the store), newest first, exactly min(`limit` (default 5), number of the sender's contexts) of them; no omitted context is newer than a returned one |
| Database.SortIQDatabase.CalculatePriorityDistribution | mailgenius-extension/database/db.js:258-264 | High, Medium and Low are always keys; the keys are exactly those three plus every predicted value that occurs; each count is that value's number of occurrences; the counts add up to the number of entries |
| Database.SortIQDatabase.CalculateActionDistribution | mailgenius-extension/database/db.js:266-272 | the keys are exactly the action types that occur, each count is that type's number of occurrences, and the counts add up to the number of actions |
| Database.SortIQDatabase.GetAnalytics | mailgenius-extension/database/db.js:238-256 | sender total; interaction total (at least the sender total); min(10, n) of the stored profiles, no profile repeated, most interactions first, none omitted having more; distributions over the 50 newest entries and actions, each summing to at most 50; recent activity = the first ten of the 50 newest entries |
| ObjectStore.Get | mailgenius-extension/database/db.js:86 | a keyed lookup returns a stored record with that key, or nothing when no record has it |
| ObjectStore.Put | mailgenius-extension/database/db.js:76 | after a put the store stays in strict key order, holds the new record, drops only the record it replaces under the same key, and keeps every record under another key |
| ObjectStore.GetAfterPut | mailgenius-extension/database/db.js:216 | reading key k after putting x gives x when k is x's key, and otherwise what the store held before |
| ObjectStore.AddKeepsAutoIds | mailgenius-extension/database/db.js:119 | adding a row under the next generated id keeps ids positive, below the generator and strictly ascending |
| Sorting.SortDesc | mailgenius-extension/database/db.js:133 | the comparator sort `(a, b) => b.timestamp - a.timestamp` returns a permutation of its input in non-increasing key order |
| Sorting.SortDescStable | mailgenius-extension/database/db.js:249 | the sort is stable: records with equal keys keep their input order |
| Sorting.TopByStable | mailgenius-extension/database/db.js:249 | ties keep input order: among the records with one key, those the sort-then-slice keeps are the first ones of the input, in input order |
| Sorting.SliceTo | mailgenius-extension/database/db.js:252 | `slice(0, end)` returns a prefix of length min(end, n), and for a negative end drops that many elements from the back |
| Sorting.TopBy | mailgenius-extension/database/db.js:249 | the first `limit` records after the sort: a sub-multiset of the input of length min(limit, n), in non-increasing key order, the whole input when limit >= n, and no omitted record has a larger key than a kept one |
| Sorting.TopWhere | mailgenius-extension/database/db.js:130-133 | the index query then sort then slice: a sub-multiset of the input (nothing repeated) holding only matching records, exactly min(`limit`, number of matches) of them, in non-increasing key order, every match when fewer than `limit` come back, no omitted match with a larger key |
| Sorting.Filter | mailgenius-extension/database/db.js:193 | an index lookup keeps exactly the matching records (both directions) with their multiplicities |
| Sorting.FilterAscending | mailgenius-extension/database/db.js:193 | an index lookup over an id-ordered store returns its records in ascending id order |
| Tally.Count | mailgenius-extension/database/db.js:258-264 | the counting loop returns the tally: keys = initial keys plus every value that occurs, each count the number of occurrences, counts summing to the number of values |
| Tally.TallyTotal | mailgenius-extension/analytics/analytics.js:130-131 | a weighted sum over a tally equals the sum of the weights of the counted values, in any key order |
| Tally.SumValues | mailgenius-extension/analytics/analytics.js:126 | the `Object.values(...).reduce` loop returns the weighted sum of the map, whatever order it visits the keys in |
| Analytics.FindProfile | mailgenius-extension/analytics/analytics.js:50 | `senderProfiles[senderKey]` finds the position of the profile with that email, or reports that none has it |
| Analytics.CountInto | mailgenius-extension/analytics/analytics.js:50-60 | one pass of the migration over the profiles: create the sender's profile if absent, then add one to its count |
| Analytics.CountAnalysisStep | mailgenius-extension/analytics/analytics.js:45-60 | one pass keeps the migration invariant: distinct emails, first-appearance order, profile = first analysis's fields with the count so far, counts summing to the analyses seen |
| Analytics.HistoryStep | mailgenius-extension/analytics/analytics.js:63-69 | one pass appends exactly the migrated entry of that analysis after the ones before it |
| Analytics.RebuildFromAnalyses | mailgenius-extension/analytics/analytics.js:45-70 | one profile per distinct sender (as many profiles as senders), in order of first appearance, each built from the sender's first analysis with count = its number of analyses; counts sum to the number of analyses; history = old history then one entry per analysis, in order, with that analysis's sender, priority and categories, timestamp `now` and id `now` + '-' + random text |
| Analytics.MigrateIfNeeded | mailgenius-extension/analytics/analytics.js:42-75 | when there are analyses and no profiles, the result is the rebuilt profiles and history; otherwise both are returned unchanged |
| Analytics.TopSenders | mailgenius-extension/analytics/analytics.js:118-121 | min(10, n) of the profiles, none repeated (a sub-multiset), in non-increasing count order, and no profile left out has more interactions than one kept |
| Analytics.TopSendersTies | mailgenius-extension/analytics/analytics.js:118-121 | senders with equal counts keep the order of the profile list: of the senders with a given count, the top-senders list holds the first ones, in their order |
| Analytics.BuildAnalytics | mailgenius-extension/analytics/analytics.js:101-145 | totals of senders, analyses and actions; priority tally with High/Medium/Low always present (missing priority counted as Medium) summing to the analyses; action tally; average '-' exactly when there are no analyses, else weighted total over the number of analyses, at most 3; the top senders as `TopSenders` gives them; the first ten history entries |
| Analytics.AverageBounds | mailgenius-extension/analytics/analytics.js:128-133 | the weighted total of the analyses is at most 3 per analysis, and at least 1 per analysis when every priority is High, Medium or Low, so the average lies in [0, 3], then in [1, 3] |
| Analytics.ElapsedUnits | mailgenius-extension/analytics/analytics.js:329-334 | the floored day, hour and minute counts fall in the ranges the branches test exactly for the matching elapsed-time intervals |
| Analytics.FormatDate | mailgenius-extension/analytics/analytics.js:325-345 | under an hour: whole minutes "m ago"; under a day: whole hours (1-23) "h ago"; one to two days: "Yesterday"; two to seven days: whole days (2-6) "d ago"; seven days or more: the locale date; a future time: a negative day count "d ago" |
| Decimal.IntToString | mailgenius-extension/analytics/analytics.js:335 | the decimal text of an integer is non-empty and starts with '-' exactly for negative numbers |
| Decimal.IntRoundTrip | mailgenius-extension/analytics/analytics.js:341 | parsing the decimal text of an integer gives the integer back, so distinct counts print differently |

## Left out

- Opening the database and creating its stores and indexes (`init`, `onupgradeneeded`) is left out. The model starts from the empty stores `init` creates. Error callbacks and Promise rejection are left out too: no store operation in the model fails.
- Database.SortIQDatabase.UpdateSenderProfile: models the update the code evidently intends, a read followed by a write of the new profile as one atomic step. The code as written never writes: its write transaction commits at the `await` before `put`, so `put` throws and every call rejects with the store unchanged (see Findings, and `UpdateProfilesAsWritten`). Interleaved updates of the same sender are not modelled either.
- Database.SortIQDatabase.AddPriorityHistory: returns the entry as built, without the generated id. The source does the same; the id appears only on the stored row.
- Database.SortIQDatabase.RecordAction: `metadata` has no default of `{}`. `now` is an extra final parameter, as it is for every writing method, standing for `Date.now()`.
- The migration reads `Date.now()` once per field. The model uses one `now` for the whole run. The text of `Math.random()` in each migrated `emailId` is the opaque string `ids(j)`, so the model does not state that ids are distinct, nor what the random number's text looks like.
- Writing the migrated data back to `chrome.storage.local`, the console logs, chart and table rendering, and the popup, options, background and content scripts are left out. They are I/O or presentation.
- Analytics.BuildAnalytics: the average is kept as the exact pair (weighted total, count). `toFixed(1)` rounding to one decimal is floating-point formatting and is not modelled.
- Distributions are maps, so the insertion order of a JavaScript object's keys is not modelled. It only affects how charts list them.
- Integer-like object keys are not modelled: JavaScript puts them first in `Object.values`. Neither are keys such as `__proto__` or `constructor`, which JavaScript objects treat specially. Emails, priorities and action types are taken as ordinary strings.
- Keys are ordered by character code point. JavaScript compares UTF-16 code units. The two differ only for characters outside the Basic Multilingual Plane.
- Timestamps and counts are exact integers. `NaN`, `undefined` fields, non-numeric timestamps and the limits of floating-point arithmetic are not modelled. Predicted priorities and action types are strings: the key `"undefined"` a missing value would produce is not singled out.
- Dates are plain millisecond counts. `Date` parsing, time zones and the range limits of `Date` are left out.

## Findings

| source | as written | input that shows it | evidently intended | confidence | as-written member | corrected member |
|---|---|---|---|---|---|---|
| mailgenius-extension/database/db.js:58-80 | the `readwrite` transaction is opened (line 59) before `await this.getSenderProfile(email)` (line 62), whose read runs in a transaction of its own; with no request of its own pending at the await, the write transaction commits, so `store.put` (line 76) throws `TransactionInactiveError` and the returned promise rejects | any call, e.g. `updateSenderProfile("a@example.com", "A", "high", "reply")` on an empty store: it rejects and the store stays empty | read the sender's profile, then store it with the count raised by one | not executed; follows from the IndexedDB rule that a transaction commits once control returns to the event loop with none of its requests pending | Database.UpdateAsWrittenNeverWrites | Database.SortIQDatabase.UpdateSenderProfile |
