# QR admin panel: a Dafny model of its core logic

The system is a React admin panel for a shop's QR codes. Workers get codes.
Every QR code has a tracking URL, a purpose, an optional username label and an
optional product code. A public redirect page resolves a scanned code and
records the scan and the scanner's location. The panel shows totals, charts
and per-worker and per-username statistics.

This project models the logic behind those screens:

- **`I18n`** (`src/lib/i18n.js`): the three translation tables and `t(key,
  language)`, with its fallback from the requested locale to English to the
  key itself.
- **`Utils`** (`src/lib/utils.js`): the worker-code format `WRK-<year>-<4
  digits>` and `calculateQRMetrics`.
- **`RedirectPage`** (`src/components/RedirectPage.jsx`): the redirect
  resolver, modelled as an imperative method. Each backend or browser call is
  an input outcome. The method returns the error text, the shown URL, the
  inserts it attempted (in order) and the scheduled navigation.
- **`Statistics`** (`src/components/Statistics.jsx`): the per-worker activity
  rows, the per-username aggregates, the scans-per-day series and the username
  search. The accumulating `reduce`/`forEach` loops are methods proved against
  reference functions.
- **`WorkersList`** (`src/components/WorkersList.jsx`): the filtered and sorted
  worker and QR lists, the scans per worker, and the grouping of codes by
  worker.
- **`Dashboard`** (`src/components/Dashboard.jsx`): the component state as a
  class whose two fetch methods take the backend's answers as inputs.
- **`App`** (`src/App.jsx`): the dispatch on path, auth state and user, and the
  initial language.
- **Shared modules**:
  - `Common`: optional fields, JavaScript truthiness, `||` defaults,
    ASCII `toLowerCase`, `includes` and `startsWith`.
  - `Sorting`: the stable `Array.prototype.sort` under the panel's
    comparators.
  - `Collections`: insertion-ordered sets (`new Set`) and counting
    dictionaries (`acc[k] = (acc[k] || 0) + 1`).

Numbers are unbounded integers, or reals where the source divides.
Strings are sequences of characters.

## Model

| member | source | states |
|---|---|---|
| Common.OrZero | src/components/Dashboard.jsx:62-63 | `n \|\| 0`: a missing number reads as 0, a present one as itself |
| Common.FirstTruthy | src/components/RedirectPage.jsx:98 | `a \|\| b \|\| c` is the first truthy operand, else the last |
| Common.Lower | src/components/WorkersList.jsx:43-44 | `toLowerCase` keeps the length and maps each character on its own |
| Common.LowerIdempotent | src/components/WorkersList.jsx:43-44 | lower-casing an already lower-cased string changes nothing |
| Common.IncludesEmpty | src/components/WorkersList.jsx:37-38 | every string includes the empty string |
| Common.IncludesLength | src/components/WorkersList.jsx:37-38 | a string includes itself, and includes nothing longer than itself |
| Sorting.LexLeTotal | src/components/WorkersList.jsx:42-48 | the name order used by the comparator relates any two strings |
| Sorting.LexLeTransitive | src/components/WorkersList.jsx:42-48 | the name order is transitive, so the comparator is consistent |
| Sorting.InsertSorted | src/components/WorkersList.jsx:42-48 | inserting into a sorted list keeps it sorted |
| Sorting.Sort | src/components/Statistics.jsx:163 | `sort` returns a permutation of its input, ordered by the comparator |
| Sorting.SortSameElements | src/components/WorkersList.jsx:67-73 | sorting keeps exactly the elements of the input |
| Collections.AddToSet | src/components/Statistics.jsx:141-145 | `set.add(x)` adds `x`, keeps the earlier elements in order, and adds no duplicates |
| Collections.Dedup | src/components/Statistics.jsx:114 | `[...new Set(s)]` has no repeats and has the same members as `s` |
| Collections.DedupOrder | src/components/Statistics.jsx:114 | `[...new Set(s)]` lists elements in the order of their first occurrence |
| Collections.Count | src/components/Statistics.jsx:310 | an element's count is positive exactly when it occurs |
| Collections.CountMultiset | src/components/Statistics.jsx:308-312 | counting occurrences agrees with the multiset of the sequence |
| Collections.CountDistinct | src/components/Statistics.jsx:314 | in a repeat-free key list each key occurs once |
| Collections.TallyTotal | src/components/Statistics.jsx:308-312 | the per-key counts over all distinct keys add up to the number of elements |
| Collections.TallyAppend | src/components/Statistics.jsx:310 | one more element increments only its own count, starting from 0 |
| Collections.Tally | src/components/Statistics.jsx:308-312 | the counting dictionary has a key exactly for each element that occurs |
| I18n.LocaleNamed | src/lib/i18n.js:23-266 | `translations[language]` exists exactly for "en", "ro" and "ru" |
| I18n.RequestedEntry | src/lib/i18n.js:278 | `translations[language]?.[key]` is defined exactly when both the locale and the key exist, and is then that locale's entry for the key |
| I18n.Translate | src/lib/i18n.js:277-279 | a key no table has is returned as itself, whatever the language; a known key gets the entry of the requested locale for "en", "ro" and "ru", and the English entry for any other language |
| I18n.DefaultTranslate | src/lib/i18n.js:269-273 | the default context's `t` returns its key |
| I18n.EnglishEntriesNonEmpty | src/lib/i18n.js:24-103 | no `en` entry is empty |
| I18n.RomanianEntriesNonEmpty | src/lib/i18n.js:105-184 | no `ro` entry is empty |
| I18n.RussianEntriesNonEmpty | src/lib/i18n.js:186-265 | no `ru` entry is empty |
| I18n.EntriesNonEmpty | src/lib/i18n.js:23-266 | no entry of any table is empty, so `\|\|` falls through only on a missing locale or key |
| I18n.KeyEntriesNonEmpty | src/lib/i18n.js:277-279 | the entries `t` may look up for a known key are not empty, so `\|\|` moves on only when an entry is missing |
| I18n.LogoutIsUntranslated | src/components/App.jsx:121 | the 'logout' key is in no table, so it is shown as "logout" |
| I18n.LanguagesTable | src/lib/i18n.js:4-20 | `languages` has keys en, ro and ru, each entry's code is its key, and these are exactly the tables' locales |
| Utils.Digits | src/lib/utils.js:3 | `toString` of a natural number is a non-empty digit string, one digit exactly below ten |
| Utils.DigitsValue | src/lib/utils.js:3 | the decimal digits of `n` read back as `n` |
| Utils.IntToString | src/lib/utils.js:4 | the year's text is its digits, with a minus sign before a negative year |
| Utils.PadStart4 | src/lib/utils.js:3 | `padStart(4, '0')` leaves four or more characters alone and fills shorter strings on the left with zeros up to four |
| Utils.LeadingZeros | src/lib/utils.js:3 | zeros in front of a digit string do not change its value |
| Utils.RandomNumber | src/lib/utils.js:3 | `Math.floor(random * 10000)` is the floor of the scaled draw and below 10000 |
| Utils.GenerateWorkerCode | src/lib/utils.js:1-5 | the code is "WRK-", the year, "-", then four digits whose value is the random number |
| Utils.DigitWidth | src/lib/utils.js:3 | a number below 10000 has at most four digits, so the padded part has exactly four |
| Utils.PaddedDigits | src/lib/utils.js:3 | a number below 10000 padded to four places is four digits that read back as the number |
| Utils.WorkerCodesDiffer | src/lib/utils.js:1-5 | in one year, different random numbers give different codes |
| Utils.CountSucceeded | src/lib/utils.js:50 | the successful entries are no more than all entries |
| Utils.CountFailed | src/lib/utils.js:52 | the failed entries are no more than all entries |
| Utils.CountsPartition | src/lib/utils.js:50-52 | every entry is either successful or failed |
| Utils.TimeOrZero | src/lib/utils.js:51 | `generationTime \|\| 0` is 0 exactly for a missing or zero time, and the time itself otherwise |
| Utils.SumTimesBound | src/lib/utils.js:51 | with no negative time the summed time is non-negative and at least each entry's time |
| Utils.CalculateQRMetrics | src/lib/utils.js:38-54 | all zero for a null or empty input; otherwise total is the count, the rates are percentages that add to 100, and the mean times the count is the summed time |
| Utils.Rates | src/lib/utils.js:48-53 | for a non-empty input, the success and error rates lie in [0, 100] and add to 100, and the mean time times the count is the total time |
| RedirectPage.LocationFromIP | src/components/RedirectPage.jsx:12-27 | a failed IP lookup gives null; a successful one gives its coordinates, city and country with a null accuracy |
| RedirectPage.Located | src/components/RedirectPage.jsx:72-108 | a device fix gives its coordinates and accuracy, plus city and country only from an address; without a fix the IP location is used |
| RedirectPage.AcquireLocation | src/components/RedirectPage.jsx:72-108 | the step-by-step assignments to `locationData` end in the location `Located` describes |
| RedirectPage.RewriteTarget | src/components/RedirectPage.jsx:128-140 | the root of the Netlify host goes to YouTube, the root of the legacy domain goes to the shop, and anything else keeps the target |
| RedirectPage.RewriteRange | src/components/RedirectPage.jsx:128-140 | the result is the target or one of the two fixed URLs, and differs from the target only on a root path of one of the two hosts |
| RedirectPage.RewriteIgnoresTarget | src/components/RedirectPage.jsx:132-140 | on a rewritten host and path the target URL plays no part |
| RedirectPage.HandleRedirect | src/components/RedirectPage.jsx:29-153 | a missing or unknown code gives the error with no insert and no navigation. A found code gives one anonymous scan insert first, then a location insert exactly when a location and the scan row exist. A parseable target navigates to the rewritten URL after 1500 ms; an unparseable one gives the error |
| RedirectPage.InvalidQRCodeIsKey | src/components/RedirectPage.jsx:33 | outside the language provider the error text is the key "invalidQRCode" |
| Statistics.Usernames | src/components/Statistics.jsx:110-112 | the username list holds exactly the truthy usernames of the worker's codes |
| Statistics.UsernamesAppend | src/components/Statistics.jsx:109-111 | the username list follows the codes: one more code appends its username exactly when that is truthy |
| Statistics.SumScans | src/components/Statistics.jsx:120 | a null scan count adds nothing, so with no negative count the sum is non-negative |
| Statistics.RoundHalfUp | src/components/Statistics.jsx:120 | `Math.round(sum / n)` is within half of the mean, with halves rounded up |
| Statistics.RoundHalfUpUnique | src/components/Statistics.jsx:120 | only one integer is that close to the mean |
| Statistics.Activity | src/components/Statistics.jsx:109-126 | a row carries the worker's name and `visits_count`, its code count, the rounded mean scan count (0 with no codes) and its distinct truthy usernames |
| Statistics.ActivityUsernamesOrder | src/components/Statistics.jsx:109-113 | a row lists its distinct usernames in the order of their first occurrence among the worker's codes |
| Statistics.ActivityRows | src/components/Statistics.jsx:109 | one activity row per worker, in the workers' order |
| Statistics.SortedActivity | src/components/Statistics.jsx:163 | the rows are a permutation of the activity rows in non-increasing `totalScans` order |
| Statistics.PrepareActivityChart | src/components/Statistics.jsx:165-191 | no chart without data; otherwise the sorted rows, with labels and the three series read index by index from them |
| Statistics.NameSeq | src/components/Statistics.jsx:131 | the usernames in code order are exactly the truthy usernames of the codes |
| Statistics.StepEffect | src/components/Statistics.jsx:131-147 | a code without a truthy username changes nothing; otherwise its username gets an entry, listed last when new, which adds the code's scans to the earlier total and records its worker, purpose and truthy product code; other usernames' entries are unchanged |
| Statistics.Aggregate | src/components/Statistics.jsx:129-151 | the accumulator has one entry per truthy username, each listed once and filed under its own username |
| Statistics.AggregateOrder | src/components/Statistics.jsx:129-151 | the accumulator's keys are the truthy usernames in the order in which they are first seen |
| Statistics.UsernamesArray | src/components/Statistics.jsx:153-158 | `Object.values` lists the entries in key insertion order |
| Statistics.Unseen | src/components/Statistics.jsx:132-139 | a username met for the first time starts with no scans, workers, purposes or product codes |
| Statistics.NamesTruthy | src/components/Statistics.jsx:131 | the empty username is never aggregated |
| Statistics.EntryStep | src/components/Statistics.jsx:130-148 | a code with another username leaves an entry unchanged |
| Statistics.EntryScans | src/components/Statistics.jsx:136-142 | a username's total is the sum of `scan_count \|\| 0` over its codes |
| Statistics.EntryWorkers | src/components/Statistics.jsx:135-141 | a username's workers are the owners of its codes, each listed once |
| Statistics.EntryPurposes | src/components/Statistics.jsx:137-143 | a username's purposes are those of its codes, each listed once |
| Statistics.EntryProductCodes | src/components/Statistics.jsx:138-146 | a username's product codes are the truthy product codes of its codes, each listed once |
| Statistics.NoFalsyProductCodes | src/components/Statistics.jsx:138-146 | no recorded product code is empty |
| Statistics.CodesTruthy | src/components/Statistics.jsx:138-146 | the product codes gathered for a username are all truthy |
| Statistics.UsernamesArrayContents | src/components/Statistics.jsx:129-158 | each aggregate is for a distinct truthy username and holds exactly its scan total, workers, purposes and non-empty product codes |
| Statistics.EveryUsernameAggregated | src/components/Statistics.jsx:129-158 | every truthy username of any worker's codes has an aggregate |
| Statistics.AggregateAppend | src/components/Statistics.jsx:130-148 | one more code changes the accumulator by exactly one step |
| Statistics.AddCode | src/components/Statistics.jsx:131-147 | the callback's in-place updates give the accumulator one step describes |
| Statistics.AddWorkerCodes | src/components/Statistics.jsx:130-149 | the `forEach` over one worker's codes continues the accumulator over exactly those codes, tagged with the worker's name |
| Statistics.AggregateUsernames | src/components/Statistics.jsx:129-158 | the nested loops produce the aggregate of every code of every worker, as an array in insertion order |
| Statistics.ScansByDay | src/components/Statistics.jsx:308-312 | the loop leaves each day's scan count, and the days in first-seen order |
| Statistics.SumOfCounts | src/components/Statistics.jsx:316-321 | the chart data adds up to the sum of the per-day counts |
| Statistics.ScansPerDayChart | src/components/Statistics.jsx:308-321 | one label per scanned day, in strictly increasing order, each with its scan count; the data adds up to the number of scans |
| Statistics.SortedDates | src/components/Statistics.jsx:314 | the dates sorted chronologically: the same days, strictly increasing |
| Statistics.Matches | src/components/Statistics.jsx:718-722 | the empty search matches every aggregate |
| Statistics.MatchingUsers | src/components/Statistics.jsx:718-723 | the filter keeps exactly the aggregates that match the search |
| Statistics.MatchingUsersKeepsOrder | src/components/Statistics.jsx:717-723 | the filter keeps the aggregates in their order, each matching one as often as it occurs |
| Statistics.SearchUsernames | src/components/Statistics.jsx:717-723 | nothing before the data loads; afterwards the matching aggregates, in their order, each as often as it occurs |
| Statistics.EmptySearchKeepsAll | src/components/Statistics.jsx:717-723 | an empty search keeps every aggregate, in order |
| WorkersList.Toggle | src/components/WorkersList.jsx:208-214 | toggling gives "desc" from "asc" and "asc" from anything else |
| WorkersList.ToggleTwice | src/components/WorkersList.jsx:208-214 | on "asc" and "desc", toggling twice restores the direction |
| WorkersList.WorkerMatches | src/components/WorkersList.jsx:37-38 | the empty query matches every worker, and a match is no longer than the name or code it was found in |
| WorkersList.NameKey | src/components/WorkersList.jsx:43-44 | the sort key is the name lower-cased: same length, unchanged by lower-casing again |
| WorkersList.WorkersMatching | src/components/WorkersList.jsx:36-39 | the filter keeps the workers whose name or code contains the query, and only those |
| WorkersList.WorkersMatchingKeepsOrder | src/components/WorkersList.jsx:36-39 | the filter keeps the matching workers in their order, each as often as it occurs |
| WorkersList.FilteredWorkers | src/components/WorkersList.jsx:31-51 | an empty query keeps every worker; otherwise the matching ones; each kept worker appears as often as in the input and no other appears; ordered by lower-cased name in the chosen direction |
| WorkersList.QrMatches | src/components/WorkersList.jsx:61-63 | the empty query matches every code |
| WorkersList.PurposeKey | src/components/WorkersList.jsx:68-69 | the sort key is the purpose lower-cased: same length, unchanged by lower-casing again |
| WorkersList.QrCodesMatching | src/components/WorkersList.jsx:60-64 | the filter keeps the codes whose purpose, username or product code contains the query, and only those |
| WorkersList.QrCodesMatchingKeepsOrder | src/components/WorkersList.jsx:60-64 | the filter keeps the matching codes in their order, each as often as it occurs |
| WorkersList.SortedByPurpose | src/components/WorkersList.jsx:67-73 | the QR sort is a permutation ordered by lower-cased purpose, ascending or descending |
| WorkersList.FilteredQRCodes | src/components/WorkersList.jsx:53-76 | empty with no selected worker or no codes for them; otherwise their codes that pass the query, each as often as it occurs and no other, ordered by lower-cased purpose |
| WorkersList.ScanWorkerIds | src/components/WorkersList.jsx:104-105 | the ids counted are exactly the truthy worker ids of the scans |
| WorkersList.IdsAppend | src/components/WorkersList.jsx:103-109 | one more scan adds its worker id exactly when that id is truthy |
| WorkersList.WorkerScanCounts | src/components/WorkersList.jsx:103-109 | the loop leaves, per worker id, the number of scans with that id |
| WorkersList.ScanCountsTotal | src/components/WorkersList.jsx:103-109 | the counts add up to the number of scans that have a worker, at most all scans |
| WorkersList.GroupKey | src/components/WorkersList.jsx:112 | a code is grouped under its worker id; a missing id and the id "null" share the group "null" |
| WorkersList.Keys | src/components/WorkersList.jsx:112 | each code's group key, in order |
| WorkersList.InGroup | src/components/WorkersList.jsx:111-117 | a group holds exactly the codes with its key |
| WorkersList.InGroupKeepsOrder | src/components/WorkersList.jsx:111-117 | a group keeps its codes in input order, each code with its key as often as it occurs |
| WorkersList.GroupSize | src/components/WorkersList.jsx:111-117 | a group has as many codes as there are codes with its key |
| WorkersList.Grouping | src/components/WorkersList.jsx:111-117 | there is a group exactly for each key that occurs |
| WorkersList.GroupingAppend | src/components/WorkersList.jsx:112-115 | one more code is pushed onto its key's group, which is created empty when missing |
| WorkersList.QrCodesByWorker | src/components/WorkersList.jsx:111-117 | the loop leaves the grouping of all codes |
| WorkersList.GroupingPartitions | src/components/WorkersList.jsx:111-117 | each code is in its own key's group and no other, and the group sizes add up to the number of codes |
| Dashboard.SumVisits | src/components/Dashboard.jsx:59 | null counts add nothing: rows that all lack a count sum to 0 |
| Dashboard.SumVisitsAppend | src/components/Dashboard.jsx:59 | the visit sum over two batches is the sum of their sums |
| Dashboard.SumVisitsBound | src/components/Dashboard.jsx:59 | with no negative counts the total is non-negative and at least any one count |
| Dashboard.TotalScans | src/components/Dashboard.jsx:59 | the sum of `visits_count`, or 0 without data |
| Dashboard.StatsOf | src/components/Dashboard.jsx:61-65 | the stats are the two counts, null shown as 0, and the visit total |
| Dashboard.ChartOf | src/components/Dashboard.jsx:83-84 | one label and one data point per code, in order, with a null scan count shown as 0 |
| Dashboard.ChartAppend | src/components/Dashboard.jsx:83-84 | the chart of two batches is the two charts side by side |
| Dashboard.Generated | src/components/Dashboard.jsx:79 | the metrics read each row's error flag and generation time |
| Dashboard.MetricsMatchChart | src/components/Dashboard.jsx:78-84 | the metrics count as many codes as the chart has points |
| Dashboard.DashboardView.constructor | src/components/Dashboard.jsx:31-38 | the initial state: zero stats, no metrics, no chart, loading |
| Dashboard.DashboardView.FetchStats | src/components/Dashboard.jsx:45-69 | sets the stats and nothing else |
| Dashboard.DashboardView.FetchQRMetrics | src/components/Dashboard.jsx:71-103 | with rows, sets the metrics and the chart from them; without, leaves both; in every case clears `loading`; stats untouched |
| App.InitialLanguage | src/App.jsx:18 | the stored language when truthy, else "en"; never empty |
| App.Dispatch | src/App.jsx:28-120 | `/r/` paths always get the redirect route and "/" always leaves for the shop. Otherwise the spinner shows exactly while loading, then a `/redoman` path shows the panel with a user and the login without one, and everything else gets the fallback routes |
| App.PrefixesDisjoint | src/App.jsx:29-52 | no path starts with both "/r/" and "/redoman", and "/" starts with neither |
| App.PanelTranslate | src/App.jsx:18-58 | a signed-in user on a `/redoman` path gets the panel, whose `t` shows the stored language's entries when that locale exists, the English entries otherwise, and an unknown key as itself |
| App.RedirectIgnoresAuth | src/App.jsx:29-35 | the view of a `/r/` path does not depend on auth state or language |

| App.TrimSlashes | src/App.jsx:32 | the pathname without its trailing slashes: a prefix ending in a non-slash, followed only by slashes |
| App.CodeParam | src/App.jsx:32 | a matched `:code` is one non-empty segment without '/' after a "/r/" compared ignoring case, followed only by slashes |
| App.CodeParamMatches | src/App.jsx:32 | every path of that shape matches the route, with that segment as its code |
| App.FallbackOutcome | src/App.jsx:115-120 | the fallback routes show the redirect page exactly when `/r/:code` matches, with the matched code; otherwise they navigate to "/" |
| App.FallbackRedirectsOnlyCapitalR | src/App.jsx:115-120 | in the fallback routes the redirect page is shown only for a path beginning "/R/"; every other path there navigates to "/" |
| App.CapitalRWaitsForAuth | src/App.jsx:29-120 | a "/R/" path shows the spinner while auth loads and then reaches the fallback routes, where it has the code the "/r/" spelling has |
| App.RoutedCodeIsTruthy | src/App.jsx:29-35 | a code that reaches the redirect page through the route is truthy; with a lower-case "/r/" the route is taken whatever the auth state |

## Left out

- Backend, browser and network calls are not modelled as effects. Their results are inputs: the Supabase selects and inserts, `navigator.geolocation`, the reverse-geocoding and IP-lookup fetches, `localStorage`, `Math.random`, the clock's year and `setTimeout`. The `await` ordering is taken as sequential.
- URL parsing (`new URL`) is the `parse` input of `RedirectPage.HandleRedirect`. Reading the UTM parameters from the query string is part of the `Visit` input.
- RedirectPage.HandleRedirect: every awaited call is assumed to settle. The geolocation `timeout` does not count the time the permission prompt stays open, and the fetches have no timeout, so in the browser a visitor who never answers the prompt is never redirected; the model has no pending outcome and always reaches a navigation or the error.
- RedirectPage.HandleRedirect: the outcome of the location insert is not modelled, because it only logs to the console. The model records that the insert was attempted.
- Sorting.Sort: the model is a stable insertion sort, but no contract states stability, because none of the modelled properties depend on the order of equal keys.
- `localeCompare` is modelled as code-point order. `toLowerCase` maps only the ASCII letters. Locale collation and Unicode case mapping are not modelled.
- `toLocaleDateString` is modelled by a day number, so chronological order is integer order. `formatTimestamp` is the `format` input of the dashboard chart.
- Floating-point arithmetic is modelled on reals. `calculateQRMetrics` therefore yields exact quotients, and the rates add up to exactly 100.
- `parseFloat` returning NaN on the IP service's coordinates is not modelled; the coordinates are reals.
- Statistics.Activity: a null `visits_count` is not modelled. It is taken to be present.
- WorkersList.WorkerMatches: a worker with a null `name` or `code` is not modelled; `toLowerCase` would throw on it. Names and codes are strings.
- WorkersList.NameKey: a null `name` is not modelled, for the same reason.
- WorkersList.QrMatches: a null `purpose` is not modelled; `toLowerCase` would throw on it. Purposes are strings.
- WorkersList.PurposeKey: a null `purpose` is not modelled, for the same reason.
- Statistics.Matches: a null purpose among an aggregate's purposes is not modelled, for the same reason.
- Statistics.Step: a null `purpose` is not modelled. The source would add null to the purpose set; here purposes are strings.
- Utils.TimeOrZero: a NaN generation time, which `|| 0` also maps to 0, is not modelled, because times are reals.
- Keys inherited from JavaScript's object prototype (such as "constructor") are not modelled, and neither is the reordering of integer-like object keys. Object keys keep plain insertion order.
- Statistics.SortedDates: `Object.keys` would give the day keys as strings. They are modelled as the day numbers themselves.
- `calculateUserBehavior`, the statistics time-range selector, the scan-count query, `fetchAllScans` and the location list of `Statistics.jsx` are not modelled. They only fetch and display rows.
- Rendering, the chart components and styling are not modelled.
- `createAuditLog` (utils.js) is not modelled: it is a single insert whose failure is logged.
- These files are not part of this model: QRCodeGenerator.jsx, AddWorker.jsx, LanguageSwitcher.jsx, auth.js, qrWorker.js, redirect.jsx, and the second App.jsx under components. They contain QR image generation, forms, authentication and bootstrapping.
- App.CodeParam: percent-decoding of the route parameter by the router is not modelled. The router compares the literal "/r/" ignoring case; lower-casing the ASCII letters is exact for that literal.
- I18n.ParseKey: the property names are taken literally; the round trip between key strings and `MessageKey` is not stated.
