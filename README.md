# Sarthi AI core, modelled in Dafny

Sarthi AI is a Next.js application for agricultural and public datasets. It has four parts that matter here:
- a dashboard that shows a dataset's statistics, anomalies, forecast and AI interpretation;
- certified reports protected by a SHA-256 integrity hash, with a page that verifies them;
- a farmer portal that looks up an Aadhaar number, fetches local weather and generates advice;
- voice input and output, and a chatbot for each dataset.

This project models the logic of those parts and proves what it promises. There is one Dafny module per source file, plus a few shared modules:

- `Wrappers`: `Option`; `Outcome`, the result of an awaited request that either settles or throws; `Reply`, an HTTP answer that is either accepted or refused with its `error` field.
- `JsString`: the ECMAScript primitives the code relies on. These are `trim`, `slice` with negative indices, `startsWith`, `includes`, `replace(/\D/g, "")`, ASCII case folding and `String(n)`.
- `JsCollections`: first-occurrence deduplication (the order of `new Set` and of `JSON.stringify`'s property list), and the own-key order of `Object.keys`.
- `StringOrder`: the default order of `Array.prototype.sort`, and a sort proved to be a sorted permutation.
- `AppTypes`: the record shapes the dashboard components share.
- `SpeakToggle`: the read-aloud toggle that the news cards and the chatbot repeat, written once.
- `Aadhaar`: `formatAadhaar`, which the farmer page and the link panel repeat, written once.

How the model is shaped:
- Pure code becomes functions and lemmas.
- A React component or hook whose handlers update state becomes a class. Its fields are the state variables and its methods are the handlers.
- A handler that awaits is split at the `await` into a `Begin…` method and a `Finish…` method. The settled request is a parameter of the `Finish…` method. Callbacks to the parent are returned as results.
- Code that builds a list or map by pushing in a loop (pagination, schema grouping, the anomaly counts, news cards) is a method with a loop, proved equal to a reference function or to the counts it stands for.
- The chart data, built with `map` and an in-place update of the first forecast point, is a method over an array, specified element by element.
- Properties the source promises are proved about that function.

Interleavings the model exposes as the code is written:
- On the farmer page, a `reset` while insights are being generated, followed by a failed or refused answer, shows the profile step with no farmer. (A late successful answer reaches the done step with no farmer, which the page's consistency predicate allows.) For this reason `FarmerPortalPage.FinishInsights` keeps consistency only when it finds the generating step.
- In the link panel, `handleUnlink` has no `try`. A rejected `DELETE` therefore leaves `loading` true and the Unlink button disabled.
- On the verify page, `FinishVerify` accepts any settled answer. Two overlapping verifications would be settled in whatever order they arrive. The page's submit button is disabled while a verification runs (app/dashboard/verify/page.tsx:288), so only a direct call of the handler can overlap.

How the integrity hash treats nested data:
- `JSON.stringify(data, Object.keys(data).sort())` uses the sorted top-level key list as an allow-list at every level of nesting (section 25.5.2 of ECMA-262).
- A nested object therefore keeps only the properties whose names are also top-level keys, in top-level sorted order. Its other properties do not reach the hash.
- `IntegrityHash.NestedOutsideListNotHashed` shows two records that differ only in a nested value and still get the same hash.

## Model

| member | source | states |
|---|---|---|
| IntegrityHash.GenerateIntegrityHash | lib/hash.ts:7-10 | the hash is 64 lowercase hexadecimal characters |
| IntegrityHash.SameLookupSameText | lib/hash.ts:3-8 | two objects with the same own properties and values have the same canonical string |
| IntegrityHash.SameLookupSameHash | lib/hash.ts:3-10 | two objects with the same own properties and values have the same canonical string and hash (determinism) |
| IntegrityHash.PermutedMembersSameHash | lib/hash.ts:8 | reordering an object's members does not change the hash |
| IntegrityHash.TopLevelPropertyList | lib/hash.ts:8 | the sorted, deduplicated key list holds every own key once, strictly ascending |
| IntegrityHash.TopLevelSortedAndComplete | lib/hash.ts:8 | the serialised top level lists every own key once, strictly ascending, each with its own canonicalised value |
| IntegrityHash.EmittedKeys | lib/hash.ts:8 | an object emits exactly the property-list names it has |
| IntegrityHash.Stringify | lib/hash.ts:8 | SerializeJSONProperty under a property list: arrays are written between brackets, objects between braces |
| IntegrityHash.Canonicalize | lib/hash.ts:8 | the tree actually written keeps each value's kind, every array element, and primitives unchanged |
| IntegrityHash.CanonicalString | lib/hash.ts:8 | `JSON.stringify(data, Object.keys(data).sort())` is a braced object text, equal to writing out the canonical tree of the data |
| IntegrityHash.EmittedKeysCongruent | lib/hash.ts:8 | which names an object emits depends only on which list names it has |
| IntegrityHash.IndexOfKey | lib/hash.ts:8 | the position of the first member with a name; none exactly when no member has it |
| IntegrityHash.HasKeyIffNamed | lib/hash.ts:8 | an object has property k exactly when k is one of its member names |
| IntegrityHash.CanonicalMemberNames | lib/hash.ts:8 | the member names of the serialised object are the names it emits |
| IntegrityHash.CanonicalIsAllowListed | lib/hash.ts:8 | at every depth the serialised tree lists exactly the allow-listed names each object has, in list order; arrays keep every element |
| IntegrityHash.ObjectPartsShape | lib/hash.ts:8 | the member loop writes one `"name":value` text per emitted name, in property-list order |
| IntegrityHash.StringifyRendersCanonical | lib/hash.ts:8 | `JSON.stringify` with the property list writes out exactly the canonical tree |
| IntegrityHash.CanonicalizeIdempotent | lib/hash.ts:8 | canonicalising a canonical tree changes nothing |
| IntegrityHash.SameCanonicalTreeSameText | lib/hash.ts:8 | objects with the same canonical tree give the same text |
| IntegrityHash.PropertyListOfSorted | lib/hash.ts:8 | the deduplicated sorted key list is strictly ascending |
| IntegrityHash.NestedOutsideListNotHashed | lib/hash.ts:8 | `{k: o1}` and `{k: o2}` whose nested objects have no member `k` serialise alike and share a hash (so `{a: {b: 1}}` and `{a: {b: 2}}` collide) |
| IntegrityHash.Utf8Char | lib/hash.ts:9 | a character encodes to 1 to 4 bytes, to one byte equal to its code exactly when it is ASCII |
| IntegrityHash.Utf8 | lib/hash.ts:9 | the encoding of a string has between one and four bytes per character |
| IntegrityHash.Utf8LeadByte | lib/hash.ts:9 | the first byte of a character's encoding determines its length |
| IntegrityHash.Utf8CharInjective | lib/hash.ts:9 | distinct characters have distinct encodings |
| IntegrityHash.Utf8Injective | lib/hash.ts:9 | distinct strings have distinct UTF-8 encodings |
| IntegrityHash.DistinctTextDistinctDigestInput | lib/hash.ts:8-9 | records with different canonical texts give different digest inputs |
| IntegrityHash.Hex | lib/hash.ts:9 | the hex digest has two lowercase hex digits per byte |
| IntegrityHash.HexByte | lib/hash.ts:9 | a byte is written as two lowercase hex digits |
| IntegrityHash.HexRoundTrip | lib/hash.ts:9 | decoding the hex rendering gives back the bytes |
| IntegrityHash.HexInjective | lib/hash.ts:9 | distinct digests give distinct hex strings |
| IntegrityHash.VerifyExactly | lib/hash.ts:16-21 | verification succeeds exactly for the freshly generated hash, so it succeeds on it for every record |
| IntegrityHash.VerifyIntegrityHash | lib/hash.ts:16-21 | a stored hash that verifies is 64 lowercase hex digits |
| IntegrityHash.UpperCasedHashRejected | lib/hash.ts:20 | an upper-cased copy of a hash that has a letter fails verification |
| IntegrityHash.MalformedHashRejected | lib/hash.ts:20 | a stored value that is not 64 lowercase hex digits never verifies |
| StringOrder.Sort | lib/hash.ts:8 | `keys.sort()` returns a sorted permutation of its input |
| StringOrder.Insert | lib/hash.ts:8 | insertion into a sorted list keeps it sorted and adds the element once |
| StringOrder.LessIrreflexive | lib/hash.ts:8 | the sort order is irreflexive |
| StringOrder.LessTransitive | lib/hash.ts:8 | the sort order is transitive |
| StringOrder.LessTotal | lib/hash.ts:8 | any two distinct strings are ordered one way or the other |
| StringOrder.LessAsymmetric | lib/hash.ts:8 | the sort order is asymmetric |
| StringOrder.StrictlySortedUnique | lib/hash.ts:8 | two strictly sorted lists with the same elements are equal |
| JsCollections.Dedup | lib/hash.ts:8 | the property list keeps each replacer name once, with the same element set |
| JsCollections.FirstIndex | lib/hash.ts:8 | the index found holds the element and no earlier index does |
| JsCollections.FirstIndexPrefix | lib/hash.ts:8 | an element of a prefix is first found at the same index in the whole list |
| JsCollections.DedupFirstOccurrenceOrder | lib/hash.ts:8 | the deduplicated list keeps its elements in the order of their first occurrences |
| JsCollections.DedupCardinality | app/components/dashboard/KPICards.tsx:54 | `[...new Set(s)].length` is the number of distinct elements |
| JsCollections.FirstKey | app/components/dashboard/AnalyticsChart.tsx:21-30 | `Object.keys(o)[0]` is none only for an empty object, is a key, is the least array-index key if there is one, and otherwise the first key created |
| JsString.TrimIdempotent | app/dashboard/verify/page.tsx:30 | `trim` is idempotent |
| JsString.TrimEmptyIff | app/dashboard/verify/page.tsx:245 | `s.trim()` is empty exactly when s is all white space |
| JsString.Slice | app/components/dashboard/NewsCorrelation.tsx:36 | `slice` with relative and out-of-range indices is the resolved sub-range |
| JsString.SliceLast | app/components/dashboard/DatasetChatbot.tsx:62 | `s.slice(-n)` is the suffix of length min(n, \|s\|) |
| JsString.TrimIsInfix | app/dashboard/verify/page.tsx:30 | `trim` keeps one contiguous piece and removes only white space before and after it |
| JsString.TrimEnds | app/dashboard/verify/page.tsx:30 | a non-empty trimmed string starts and ends with a non-space |
| JsString.ToLowerAscii | app/components/dashboard/SchemaPanel.tsx:25 | `toLowerCase` maps each character, keeping the length |
| JsString.NatToString | app/components/dashboard/AnomalyTable.tsx:33 | `String(n)` is a non-empty digit string without a leading zero, one digit exactly below 10 |
| JsCollections.LeastIndexKey | app/components/dashboard/AnalyticsChart.tsx:21-30 | the least array-index key, none exactly when no key is an array index |
| JsString.DigitsOf | lib/mockAadhaar.ts:102 | `replace(/\D/g, "")` leaves only digits, and leaves a digit string as it is |
| JsString.DigitsOfIdempotent | lib/mockAadhaar.ts:102 | removing non-digits twice is the same as once |
| JsString.NatToStringRoundTrip | app/components/dashboard/AnomalyTable.tsx:33 | reading back `String(n)` gives n |
| VerifyPage.ExtractIdFindsFirstRun | app/dashboard/verify/page.tsx:27-31 | with a run of 16 or more id characters, the id is the first maximal such run, whole |
| VerifyPage.ExtractIdFallsBackToTrim | app/dashboard/verify/page.tsx:30 | without such a run the id is the trimmed input |
| VerifyPage.ExtractIdOfBareId | app/dashboard/verify/page.tsx:27-31 | a bare id is returned unchanged |
| VerifyPage.ExtractIdAfterPrefix | app/dashboard/verify/page.tsx:28-30 | an id after `verify/` or a URL is found, without the `verify/` |
| VerifyPage.ExtractIdIdempotent | app/dashboard/verify/page.tsx:27-31 | `extractId` is idempotent |
| VerifyPage.MatchAt | app/dashboard/verify/page.tsx:29 | a match attempt at one position yields a whole run of at least 16 id characters that fits after that position |
| VerifyPage.FirstMatch | app/dashboard/verify/page.tsx:29 | the leftmost match, when there is one, is a run of at least 16 id characters no longer than the input |
| VerifyPage.ExtractId | app/dashboard/verify/page.tsx:27-31 | the result is a string of 16 or more id characters, or else the trimmed input, and is never longer than the input |
| VerifyPage.TrimKeepsNoLongRun | app/dashboard/verify/page.tsx:30 | trimming an input that has no run of 16 id characters cannot create one |
| VerifyPage.ExtractIdEmptyIffBlank | app/dashboard/verify/page.tsx:211-212 | the extracted id is empty exactly when the input is blank |
| VerifyPage.MatchBeforeFirst | app/dashboard/verify/page.tsx:29 | no match attempt before the first long run yields anything else |
| VerifyPage.RunLen | app/dashboard/verify/page.tsx:29 | the run of id characters at a position is maximal |
| VerifyPage.QuickOutcome | app/dashboard/verify/page.tsx:235-237 | a report is recorded valid exactly when the reply has `isValid === true` |
| VerifyPage.FailureMessage | app/dashboard/verify/page.tsx:224 | a thrown message is shown, else "Verification failed" |
| VerifyPage.VerifyDashboard.constructor | app/dashboard/verify/page.tsx:189-198 | the initial state |
| VerifyPage.VerifyDashboard.FinishLoadReports | app/dashboard/verify/page.tsx:202-208 | `reports ?? []` on success, unchanged on failure, loading ends |
| VerifyPage.VerifyDashboard.SetInput | app/dashboard/verify/page.tsx:189 | only the input changes |
| VerifyPage.VerifyDashboard.BeginVerify | app/dashboard/verify/page.tsx:210-215 | an empty id changes nothing; otherwise verifying, no result, no error, and that id is requested |
| VerifyPage.VerifyDashboard.FinishVerify | app/dashboard/verify/page.tsx:216-227 | an error reply or a throw sets the error, any other reply is the result, verifying ends |
| VerifyPage.VerifyDashboard.HandleSubmit | app/dashboard/verify/page.tsx:243-246 | a blank input does nothing; otherwise the trimmed input is verified |
| VerifyPage.VerifyDashboard.ResetResult | app/dashboard/verify/page.tsx:328 | the result and the input are cleared |
| VerifyPage.VerifyDashboard.BeginQuickVerify | app/dashboard/verify/page.tsx:231 | the row shows as checking |
| VerifyPage.VerifyDashboard.FinishQuickVerify | app/dashboard/verify/page.tsx:232-240 | only that report's entry changes, to the reply's validity; checking ends |
| VerifyPage.SubmittedIdNonEmpty | app/dashboard/verify/page.tsx:243-246 | a non-blank submission always yields an id |
| VerifyPage.ViewRow | app/dashboard/verify/page.tsx:394-468 | a row is checked exactly when its id is a key of the results; VALID exactly for a recorded true; the dataset name is shown as given, or "Unknown dataset" when missing; its button is disabled exactly while checking |
| VerifyPage.ListedRows | app/dashboard/verify/page.tsx:393 | at most 8 rows, the first reports in order |
| Pagination.Run | app/components/dashboard/Pagination.tsx:24-26 | the loop pushes the consecutive numbers lo..hi |
| Pagination.RunStep | app/components/dashboard/Pagination.tsx:24-26 | each loop step pushes the next number onto the run |
| Pagination.PageList | app/components/dashboard/Pagination.tsx:18-29 | up to 7 pages it lists 1..totalPages; beyond that the list is windowed |
| Pagination.LayoutIsWindowed | app/components/dashboard/Pagination.tsx:21-29 | beyond 7 pages: 1 first and totalPages last; at most 7 entries; rising numbers; page and its in-range neighbours present; an ellipsis after 1 iff page > 3 and before the last iff page < totalPages - 2 |
| Pagination.EllipsisPositions | app/components/dashboard/Pagination.tsx:23-27 | where the two ellipses stand |
| Pagination.ShowingRange | app/components/dashboard/Pagination.tsx:14-15 | `to` never exceeds the total, and a page with items shows a non-empty range of at most one page |
| Pagination.Render | app/components/dashboard/Pagination.tsx:11-78 | nothing for at most one page; otherwise the range and the list; Prev is disabled exactly on page 1 and Next exactly on the last page |
| AnomalyTable.TotalPages | app/components/dashboard/AnomalyTable.tsx:24 | `ceil(n / 10)` |
| AnomalyTable.PageSlice | app/components/dashboard/AnomalyTable.tsx:25 | at most 10 consecutive anomalies starting at `(page-1)*10` |
| AnomalyTable.PagesUpToIsPrefix | app/components/dashboard/AnomalyTable.tsx:25 | pages 1..k together are the prefix of length min(10k, n) |
| AnomalyTable.PagesCoverAll | app/components/dashboard/AnomalyTable.tsx:24-25 | pages 1..totalPages concatenate to the whole list |
| AnomalyTable.SeverityOf | app/components/dashboard/AnomalyTable.tsx:51 | High iff z > 4, Medium iff 3 < z ≤ 4, Low otherwise |
| AnomalyTable.Header | app/components/dashboard/AnomalyTable.tsx:33 | "outlier" is plural exactly when the count is not 1 |
| AnomalyTable.Render | app/components/dashboard/AnomalyTable.tsx:13-89 | an empty list shows the message and no table; otherwise a row per anomaly of the page slice, with the pagination inputs |
| SchemaPanel.SomeIncluded | app/components/dashboard/SchemaPanel.tsx:25 | true iff some word occurs in the string |
| SchemaPanel.IsAgriculturalDataset | app/components/dashboard/SchemaPanel.tsx:23-27 | agricultural exactly when some column matches a keyword case-insensitively |
| SchemaPanel.IsAgriculturalIff | app/components/dashboard/SchemaPanel.tsx:6-27 | true iff some lower-cased column contains some keyword |
| SchemaPanel.FindDateLike | app/components/dashboard/SchemaPanel.tsx:128 | the first column matching the date words |
| SchemaPanel.DateColumn | app/components/dashboard/SchemaPanel.tsx:127-129 | none without a date range, otherwise the first date-like column |
| SchemaPanel.Count | app/components/dashboard/SchemaPanel.tsx:132-135 | the number of anomalies in column c is positive iff some anomaly names c |
| SchemaPanel.AnomalyMap | app/components/dashboard/SchemaPanel.tsx:132-135 | the map's keys are the anomaly columns, each mapped to its count |
| SchemaPanel.AnomalyMapStep | app/components/dashboard/SchemaPanel.tsx:133-134 | one more anomaly adds its column to the keys and raises that column's count by one, leaving the others |
| SchemaPanel.AnomalyCountOrZero | app/components/dashboard/SchemaPanel.tsx:134 | `anomalyMap[c] ?? 0` is the count for a column (names of inherited object members excepted, see Left out) |
| SchemaPanel.CountsSumToTotal | app/components/dashboard/SchemaPanel.tsx:132-135 | the counts sum to the number of anomalies |
| SchemaPanel.OfType | app/components/dashboard/SchemaPanel.tsx:137-143 | a group holds only columns of its type |
| SchemaPanel.OfTypeAppend | app/components/dashboard/SchemaPanel.tsx:138-143 | grouping splits over concatenation, so each group keeps column order |
| SchemaPanel.Group | app/components/dashboard/SchemaPanel.tsx:137-143 | the loop builds the four groups in column order |
| SchemaPanel.GroupsMultisetStep | app/components/dashboard/SchemaPanel.tsx:138-143 | one more column lands in exactly one group |
| SchemaPanel.GroupsPartition | app/components/dashboard/SchemaPanel.tsx:137-154 | the groups are a permutation of the columns, and their counts sum to the column count |
| SchemaPanel.OfTypeMembers | app/components/dashboard/SchemaPanel.tsx:137-143 | a column is in a group iff it is one of the columns and the classification puts it there |
| SchemaPanel.ClassifierPriority | app/components/dashboard/SchemaPanel.tsx:139-142 | numeric columns first, then the date column, then the text-like names, everything else categorical |
| SchemaPanel.NoDateColumnNoDateGroup | app/components/dashboard/SchemaPanel.tsx:140 | without a date column the Date group is empty |
| SchemaPanel.DateGroupIsDateColumn | app/components/dashboard/SchemaPanel.tsx:127-140 | the Date group is empty without a date range, and otherwise holds only the chosen non-numeric date column |
| SchemaPanel.Visible | app/components/dashboard/SchemaPanel.tsx:145-147 | collapsed: the prefix of length min(8, n); expanded: the whole group |
| SchemaPanel.ToggleLabel | app/components/dashboard/SchemaPanel.tsx:206-261 | shown iff more than 8 columns; "Show N more columns" with N = n - 8 |
| SchemaPanel.CategoricalChips | app/components/dashboard/SchemaPanel.tsx:146-250 | categorical columns then text columns; a chip is Text iff in the Text group |
| SchemaPanel.PillsCounted | app/components/dashboard/SchemaPanel.tsx:178-184 | every pill carries its group's count, which is positive |
| SchemaPanel.PillsCover | app/components/dashboard/SchemaPanel.tsx:178-184 | a type has a pill iff its group is non-empty |
| SchemaPanel.PillsOrdered | app/components/dashboard/SchemaPanel.tsx:178-184 | the pills follow the fixed type order Numeric, Date, Categorical, Text, each at most once |
| SchemaPanel.Pills | app/components/dashboard/SchemaPanel.tsx:178-187 | at most four pills, each carrying its type's positive count |
| KpiCards.BandOf | app/components/dashboard/KPICards.tsx:40-42 | Low < 30 ≤ Moderate < 60 ≤ High |
| KpiCards.GrowthText | app/components/dashboard/KPICards.tsx:26 | "N/A" exactly for null; "+" only when strictly positive |
| KpiCards.GrowthGreen | app/components/dashboard/KPICards.tsx:28-29 | green iff non-null and ≥ 0 |
| KpiCards.AnomalyColumnCount | app/components/dashboard/KPICards.tsx:54 | the number of distinct anomaly columns, zero iff no anomalies |
| KpiCards.DateSub | app/components/dashboard/KPICards.tsx:13 | "No date detected" exactly without a date range |
| KpiCards.Cards | app/components/dashboard/KPICards.tsx:9-64 | exactly four cards in fixed order with their values; the records card indigo #6366f1 on #f0f3ff; the growth card green #16a34a on #f0fdf4 when growth is present and non-negative, else red #dc2626 on #fef2f2; the risk card in its band's colour and background; the anomaly card green on #f0fdf4 with no anomalies, else orange #e97316 on #fff7ed |
| KpiCards.CardColours | app/components/dashboard/KPICards.tsx:24-56 | a null growth renders red on the red background, a negative one red; the growth card is green exactly when growth is present and non-negative; the anomaly card is green exactly when there are no anomalies |
| AnalyticsChart.PrimaryColumn | app/components/dashboard/AnalyticsChart.tsx:21-30 | none iff there are no numeric columns; otherwise a numeric column, the first key in own-key order |
| AnalyticsChart.Averages | app/components/dashboard/AnalyticsChart.tsx:33 | `movingAverages[col] ?? []`: non-empty averages are the column's recorded series |
| AnalyticsChart.RealData | app/components/dashboard/AnalyticsChart.tsx:37-41 | one real point per moving-average value |
| AnalyticsChart.ChartData | app/components/dashboard/AnalyticsChart.tsx:33-56 | real points (index i + 6, no forecast) then forecast points (period, value, label, no real value), with the last real value copied onto the first forecast point |
| AnalyticsChart.Find | app/components/dashboard/AnalyticsChart.tsx:66 | a point with that index, none iff there is none |
| AnalyticsChart.FindRealPoint | app/components/dashboard/AnalyticsChart.tsx:37-66 | a real point exists exactly for the averaged rows and holds that row's average |
| AnalyticsChart.ForColumn | app/components/dashboard/AnalyticsChart.tsx:59-60 | exactly the anomalies of the column |
| AnalyticsChart.Dots | app/components/dashboard/AnalyticsChart.tsx:64-69 | at most one dot per marked anomaly |
| AnalyticsChart.DotsAreDotsByRow | app/components/dashboard/AnalyticsChart.tsx:64-69 | the dots are those of the marked anomalies whose row was averaged, in order |
| AnalyticsChart.DotsByRowPlaced | app/components/dashboard/AnalyticsChart.tsx:64-69 | each such dot sits on an averaged row of a marked anomaly, at its average |
| AnalyticsChart.AnomalyDotsBounded | app/components/dashboard/AnalyticsChart.tsx:59-69 | at most 8 dots, each from a primary-column anomaly whose row is a real point |
| AnalyticsChart.AnomalyDots | app/components/dashboard/AnalyticsChart.tsx:58-70 | at most 8 dots, and no more than there are anomalies |
| AnalyticsChart.Render | app/components/dashboard/AnalyticsChart.tsx:20-76 | no chart without numeric columns; otherwise the primary column's heading, its dots, and data holding real points (index i + 6), then forecast points (period, value, label), with the last real value copied onto the first forecast point |
| NewsCorrelation.Shorten | app/components/dashboard/NewsCorrelation.tsx:40-52 | the text itself up to n characters, else its first n and "…" |
| NewsCorrelation.BuildNewsCards | app/components/dashboard/NewsCorrelation.tsx:22-86 | the pushing loops build the first five of the grouped cards |
| NewsCorrelation.AnomalyCards | app/components/dashboard/NewsCorrelation.tsx:36-47 | one anomaly card per explanation, at most two |
| NewsCorrelation.ExternalCards | app/components/dashboard/NewsCorrelation.tsx:50-59 | one news card per item, at most three |
| NewsCorrelation.NewsCards | app/components/dashboard/NewsCorrelation.tsx:85 | at most five cards are shown |
| NewsCorrelation.AllCards | app/components/dashboard/NewsCorrelation.tsx:36-84 | at most seven cards before the cut, with at least one per contextual news item up to three |
| NewsCorrelation.AllCardsAt | app/components/dashboard/NewsCorrelation.tsx:36-83 | card i is an anomaly card, a news card, the risk card or the trend card by its position |
| NewsCorrelation.ShownCardAt | app/components/dashboard/NewsCorrelation.tsx:36-85 | a shown card is the card at the same position before the cut, with that position's group |
| NewsCorrelation.CardsOrdered | app/components/dashboard/NewsCorrelation.tsx:36-85 | at most 5 cards, in order anomaly (at most 2), news (at most 3), risk, trend |
| NewsCorrelation.RiskCardShown | app/components/dashboard/NewsCorrelation.tsx:62-85 | a risk card is shown iff the score is above 50 and fewer than five cards precede it |
| NewsCorrelation.TrendCardShown | app/components/dashboard/NewsCorrelation.tsx:74-85 | a trend card is shown iff the narrative is non-empty and fewer than five cards precede it |
| NewsCorrelation.CardSummaries | app/components/dashboard/NewsCorrelation.tsx:42-79 | anomaly cards come first and news cards next; each summary is its source text; news cards are dated `prevMonth \|\| dateStr` |
| NewsCorrelation.ExternalHeadline | app/components/dashboard/NewsCorrelation.tsx:52 | a news headline is the item shortened to 80 characters |
| NewsCorrelation.SecondAnomalyHeadline | app/components/dashboard/NewsCorrelation.tsx:38-40 | the second anomaly headline shortens the explanation to 60 characters |
| NewsCorrelation.TrendHeadline | app/components/dashboard/NewsCorrelation.tsx:76 | the trend headline keeps at most 70 characters and always ends in "…" |
| SpeakToggle.AfterClick | app/components/dashboard/NewsCorrelation.tsx:107-115 | a click on the item being read clears the index, any other click sets it |
| SpeakToggle.RequestFor | app/components/dashboard/NewsCorrelation.tsx:107-115 | stop exactly for the item being read, otherwise speak its text |
| SpeakToggle.ClickTwiceStops | app/components/dashboard/NewsCorrelation.tsx:107-115 | two clicks on an idle item start and then stop it |
| SpeakToggle.SpeakingIndex.constructor | app/components/dashboard/NewsCorrelation.tsx:97 | nothing is being read |
| SpeakToggle.SpeakingIndex.HandleSpeak | app/components/dashboard/NewsCorrelation.tsx:107-115 | the index and request follow the toggle |
| SpeakToggle.SpeakingIndex.SpeakingChanged | app/components/dashboard/NewsCorrelation.tsx:101-103 | the index is cleared when speech stops |
| Aadhaar.ReplaceGroupsOfDigits | app/dashboard/farmer/page.tsx:73 | on digits the regex replacement is grouping by four with hyphens |
| Aadhaar.FormatAadhaar | app/dashboard/farmer/page.tsx:71-74 | the first 12 digits of the input, grouped by four |
| Aadhaar.GroupedDigits | app/dashboard/farmer/page.tsx:73 | the grouping's digits are its input |
| Aadhaar.GroupedAt | app/dashboard/farmer/page.tsx:73 | a hyphen exactly at every fifth place, a digit elsewhere |
| Aadhaar.GroupedLength | app/dashboard/farmer/page.tsx:73 | the grouping adds one hyphen per complete group that a digit follows |
| Aadhaar.GroupedShape | app/dashboard/farmer/page.tsx:73 | digits and hyphens only, never a trailing hyphen |
| Aadhaar.FormatAadhaarShape | app/dashboard/farmer/page.tsx:71-74 | only digits and '-'; the digits are the first 12 of the input; at most 14 characters; no trailing hyphen |
| Aadhaar.FormatAadhaarIdempotent | app/dashboard/farmer/page.tsx:71-74 | `formatAadhaar` is idempotent |
| Aadhaar.FormattedInputValid | app/dashboard/farmer/page.tsx:95-96 | the formatted field has 12 digits iff the typed text had at least 12 |
| Aadhaar.IsValidAadhaarInput | app/components/dashboard/FarmerLinkPanel.tsx:27 | a valid input has at least 12 characters; an all-digit input is valid exactly when it has 12 |
| FarmerPortal.FarmerPortalPage.constructor | app/dashboard/farmer/page.tsx:87-92 | the empty input step |
| FarmerPortal.FarmerPortalPage.SetInput | app/dashboard/farmer/page.tsx:71-74 | the field holds the formatted text |
| FarmerPortal.FarmerPortalPage.BeginFetch | app/dashboard/farmer/page.tsx:94-105 | without 12 digits an error and the step unchanged; otherwise loading and the digits requested |
| FarmerPortal.FarmerPortalPage.FinishFarmer | app/dashboard/farmer/page.tsx:106-122 | a found farmer is stored and its weather requested; otherwise back to input with the error |
| FarmerPortal.FarmerPortalPage.FinishWeather | app/dashboard/farmer/page.tsx:114-122 | the report is stored and the profile shown; otherwise back to input with the error |
| FarmerPortal.FarmerPortalPage.BeginInsights | app/dashboard/farmer/page.tsx:125-128 | a no-op without farmer and weather; otherwise generating with no error |
| FarmerPortal.FarmerPortalPage.FinishInsights | app/dashboard/farmer/page.tsx:130-143 | done with the insights, or back to profile with the error |
| FarmerPortal.FarmerPortalPage.Reset | app/dashboard/farmer/page.tsx:146-153 | back to input with everything cleared |
| FarmerPortal.HappyPath | app/dashboard/farmer/page.tsx:94-144 | the successful sequence goes input, loading, profile, generating, done |
| FarmerLinkPanel.LinkPanel.constructor | app/components/dashboard/FarmerLinkPanel.tsx:19-23 | the initial state |
| FarmerLinkPanel.LinkPanel.SetInput | app/components/dashboard/FarmerLinkPanel.tsx:14-16 | the field holds the formatted text, identical to the farmer page's |
| FarmerLinkPanel.LinkPanel.BeginLink | app/components/dashboard/FarmerLinkPanel.tsx:25-35 | without 12 digits an error and nothing sent; otherwise only the digits are sent, and Unlink is disabled |
| FarmerLinkPanel.LinkPanel.FinishLink | app/components/dashboard/FarmerLinkPanel.tsx:36-45 | success calls `onLinked`, clears the input and `analysed`; failure sets the error; loading ends |
| FarmerLinkPanel.LinkPanel.BeginUnlink | app/components/dashboard/FarmerLinkPanel.tsx:48-49 | loading starts and Unlink is disabled |
| FarmerLinkPanel.LinkPanel.FinishUnlink | app/components/dashboard/FarmerLinkPanel.tsx:50-54 | a settled request ends loading, clears `analysed` and calls `onUnlinked`; a rejected one leaves the state, so a pending unlink keeps Unlink disabled |
| FarmerLinkPanel.LinkPanel.BeginAnalysis | app/components/dashboard/FarmerLinkPanel.tsx:56-58 | analysing starts with no error, and Unlink is disabled |
| FarmerLinkPanel.LinkPanel.FinishAnalysis | app/components/dashboard/FarmerLinkPanel.tsx:59-69 | success sets `analysed`; the callback gets the report only if both are present; failure keeps `analysed` and sets the error |
| FarmerLinkPanel.LinkPanel.ReRun | app/components/dashboard/FarmerLinkPanel.tsx:168 | only `analysed` is cleared |
| MockAadhaar.FindByAadhaar | lib/mockAadhaar.ts:103 | the first entry with that number, none iff no entry has it |
| MockAadhaar.GetFarmerByAadhaar | lib/mockAadhaar.ts:101-104 | a result is a table entry whose number is the input's digits; none iff no entry has them |
| MockAadhaar.TableNumbersDistinct | lib/mockAadhaar.ts:18-99 | every table number has 12 digits and no two entries share one |
| MockAadhaar.WrongLengthNotFound | lib/mockAadhaar.ts:101-104 | an input without exactly 12 digits finds nobody |
| MockAadhaar.FoundEntryUnique | lib/mockAadhaar.ts:101-104 | the entry with the input's digits is the one returned |
| MockAadhaar.SameDigitsSameFarmer | lib/mockAadhaar.ts:102 | inputs with the same digits give the same result |
| MockAadhaar.FormattedLookup | lib/mockAadhaar.ts:102 | looking up the hyphenated form finds what the digits find |
| WeatherRoute.WeatherCodeDesc | app/api/farmer/weather/route.ts:36-45 | the eight bands of the if-chain |
| WeatherRoute.Band | app/api/farmer/weather/route.ts:36-45 | every code falls in one of the eight bands |
| WeatherRoute.WeatherCodeDescExclusive | app/api/farmer/weather/route.ts:36-45 | every code gets exactly one label, and negative codes are partly cloudy |
| WeatherRoute.ShapeCurrent | app/api/farmer/weather/route.ts:33-56 | temperature, humidity, precipitation, wind speed, cloud cover and code are copied; the condition labels the code, a missing code counting as 0, "Clear sky" |
| WeatherRoute.ShapeCurrentKeepsFields | app/api/farmer/weather/route.ts:47-56 | every service field can be read back from the shaped object, and the condition is the label of the code sent |
| WeatherRoute.ShapeDaily | app/api/farmer/weather/route.ts:57-64 | one entry per element of `daily.time`, none if it is absent |
| WeatherRoute.DailyEntries | app/api/farmer/weather/route.ts:57-64 | entry i takes element i of each series; its condition is the description of code i, and a missing, short or null code series element gives "Clear sky" |
| WeatherRoute.Get | app/api/farmer/weather/route.ts:3-70 | 400 exactly without both coordinates; otherwise the shaped answer or 500 |
| WeatherRoute.MissingCoordinatesNeverFetch | app/api/farmer/weather/route.ts:8-10 | without coordinates the answer does not depend on the forecast service |
| WeatherRoute.UpstreamFailure | app/api/farmer/weather/route.ts:27-68 | with coordinates, weather is returned iff the service answered with a success status |
| UseStt.ErrorMessage | app/hooks/useSTT.ts:63-75 | no message exactly for "aborted" and "no-speech"; the table message; otherwise "Speech error: " and the code |
| UseStt.AfterError | app/hooks/useSTT.ts:63-74 | quiet codes go idle, any other goes to error |
| UseStt.AfterEnd | app/hooks/useSTT.ts:78-80 | listening becomes idle; any other state is kept |
| UseStt.AfterEndSettles | app/hooks/useSTT.ts:78-80 | an end event never leaves listening, and a second one changes nothing |
| UseStt.SpeechToText.constructor | app/hooks/useSTT.ts:13-18 | language defaults to "hi-IN"; idle and empty |
| UseStt.SpeechToText.Rerender | app/hooks/useSTT.ts:13 | a render with a new `lang` option changes only the language the next `start` uses |
| UseStt.SpeechToText.DetectSupport | app/hooks/useSTT.ts:20-24 | records whether a recognizer exists |
| UseStt.SpeechToText.Start | app/hooks/useSTT.ts:26-84 | without a recognizer: error and the unsupported message; otherwise the previous one is aborted and a final-result, single-alternative, non-continuous one is started |
| UseStt.SpeechToText.OnStart | app/hooks/useSTT.ts:48-51 | listening with an empty transcript |
| UseStt.SpeechToText.OnResult | app/hooks/useSTT.ts:54-59 | the transcript is set and done; `onResult` gets the trimmed text only if it is non-empty |
| UseStt.SpeechToText.OnError | app/hooks/useSTT.ts:62-76 | the state and message of `AfterError` and `ErrorMessage` |
| UseStt.SpeechToText.OnEnd | app/hooks/useSTT.ts:78-80 | the state of `AfterEnd` |
| UseStt.SpeechToText.Stop | app/hooks/useSTT.ts:86-89 | idle, transcript kept |
| UseStt.SpeechToText.Reset | app/hooks/useSTT.ts:91-95 | idle, transcript cleared |
| DatasetChatbot.HistoryWindow | app/components/dashboard/DatasetChatbot.tsx:51-62 | the history is the last min(8, n) messages and ends with the new question |
| DatasetChatbot.History | app/components/dashboard/DatasetChatbot.tsx:62 | `slice(-8)`: the last min(8, n) messages |
| DatasetChatbot.Greeting | app/components/dashboard/DatasetChatbot.tsx:33 | the fixed opening, the dataset name, the fixed closing; the name can be read back from its place |
| DatasetChatbot.ChatPanel.QuickPromptsShown | app/components/dashboard/DatasetChatbot.tsx:215 | while a question is pending, the prompts show only when that question is the whole conversation |
| DatasetChatbot.ReplyText | app/components/dashboard/DatasetChatbot.tsx:66-70 | the reply, or "Sorry, something went wrong." without one, or the connection message on failure |
| DatasetChatbot.ChatPanel.constructor | app/components/dashboard/DatasetChatbot.tsx:17-22 | closed, empty, English |
| DatasetChatbot.ChatPanel.Toggle | app/components/dashboard/DatasetChatbot.tsx:27-97 | `open` flips, and the greeting is inserted exactly when opening on an empty transcript |
| DatasetChatbot.ChatPanel.SetInput | app/components/dashboard/DatasetChatbot.tsx:220-235 | only the input changes |
| DatasetChatbot.ChatPanel.SetLang | app/components/dashboard/DatasetChatbot.tsx:136 | only the language changes |
| DatasetChatbot.ChatPanel.BeginSend | app/components/dashboard/DatasetChatbot.tsx:47-65 | a blank input or a pending request changes nothing; otherwise the trimmed question is appended, the input cleared, loading set, and the request carries the question, the last 8 messages and the language |
| DatasetChatbot.ChatPanel.FinishSend | app/components/dashboard/DatasetChatbot.tsx:66-73 | exactly one assistant message is appended and loading ends |
| DatasetChatbot.ChatPanel.HandleSpeak | app/components/dashboard/DatasetChatbot.tsx:76-84 | the shared toggle, speaking in the selected language |
| DatasetChatbot.ChatPanel.SpeakingChanged | app/components/dashboard/DatasetChatbot.tsx:43-45 | the index is cleared when speech stops |
| DatasetChatbot.FirstExchange | app/components/dashboard/DatasetChatbot.tsx:27-215 | greeting, question, reply; the quick prompts are then hidden |
| Sidebar.Nav | app/components/dashboard/Sidebar.tsx:7-117 | seven links in `NAV_ITEMS` order, each active by the rule |
| Sidebar.IsActive | app/components/dashboard/Sidebar.tsx:114-117 | an active item's href is a prefix of the path |
| Sidebar.DashboardActiveIff | app/components/dashboard/Sidebar.tsx:114-116 | Dashboard is active exactly on "/dashboard" |
| Sidebar.HrefsUnnested | app/components/dashboard/Sidebar.tsx:7-82 | no non-root href is a prefix of another |
| Sidebar.AtMostOneActive | app/components/dashboard/Sidebar.tsx:7-117 | at most one link is active for any path |
| Sidebar.NestedPathActivates | app/components/dashboard/Sidebar.tsx:117 | a path below an item's href activates that item and no other |
| Sidebar.AvatarInitial | app/components/dashboard/Sidebar.tsx:143 | `charAt(0)`: the first character, empty exactly for an empty name |

Small definitions without a contract of their own are described by the rows that use them. Among them are `JsString.Trim` (`TrimIsInfix`, `TrimEnds`), `IntegrityHash.PropertyList` and `IntegrityHash.SortedKeys` (`TopLevelPropertyList`), `FarmerLinkPanel.LinkPanel.UnlinkDisabled` (the link panel's `Begin…` methods and `FinishUnlink`), and the class invariants `ChatPanel.Valid` and `FarmerPortalPage.Consistent`.

## Left out

- The Python analytics service is not modelled. Its statistics are floating-point numeric work with database I/O around them.
- SHA-256 itself is a function parameter of the hash model. So are the rendering of JSON leaf strings (quoting and escaping) and of numbers. A collision-free hash is not assumed: tampering is stated only as inequality of hash inputs.
- `toJSON` methods, `undefined` members, inherited properties and symbol keys are left out of `JSON.stringify`. Report snapshots are plain JSON data.
- Strings are sequences of Unicode code points, not UTF-16 code units. For characters outside the Basic Multilingual Plane, `length`, `slice`, `charAt` and the default `sort` order differ from the model.
- `toLowerCase` and the `i` regex flag are modelled on ASCII letters only. Non-ASCII letters that fold to ASCII, such as the Kelvin sign or dotted capital I, are not handled.
- Locale formatting (`toLocaleString`, `toLocaleDateString` with "en-IN") is a parameter, and so is number-to-text conversion of reals. This covers `riskText` in the news cards and the formatted months.
- The QR helper, the text-to-speech hook, the other API routes (upload, datasets, reports, insights, voice advisory, public verify), database access and LLM calls are not part of this model.
- Presentational components, CSS, scrolling, focusing, clipboard use and `setTimeout` are not modelled.
- The demo-number buttons on the farmer page are not modelled. They only set the input.
- React batching and re-rendering are not modelled. Each handler's part before or after an `await` is one step, and the settled request is an input.
- Events from an aborted recognizer session arriving after a new `start` are not modelled. The model's events always concern the current recognizer.
- WeatherRoute.Get: an undefined current value and a null one are both `None`, although JSON output omits the first and writes `null` for the second.
- WeatherRoute.Get: the request URL and its query parameters are not modelled. The service is a function of the two coordinate strings.
- SchemaPanel.AnomalyMap: `anomalyMap` is a plain `{}`. A column named after an inherited member, such as "constructor" or "toString", reads that member, so the source's count becomes text, and for "__proto__" the count is lost. The model's map treats every name as an ordinary key. AnalyticsChart.Averages has the same edge for `movingAverages[col] ?? []`.
- VerifyPage.ViewRow: `quickResults` is a plain `{}` tested with `report.reportId in quickResults`. A report id named after an inherited member, such as "constructor" or "toString", therefore already counts as checked in the source, with a badge read from that member. The model's map treats every id as an ordinary key, absent until a result is recorded.
- AnomalyTable.Render: the empty-list message ends in U+00E2 U+0153 U+201C ("âœ“"), as the source file is written. This is the check mark U+2713 encoded as UTF-8 and read back as Windows-1252; the check mark is evidently intended.
- UseStt.ErrorMessage: codes that name inherited object properties, such as "constructor", are treated as unknown codes. In the source, `msgs[e.error]` would find the inherited value.
- FarmerPortal.FarmerPortalPage.FinishFarmer: a success answer without a `farmer` field throws a TypeError in the source. The model requires the field to be present.
- DatasetChatbot.ReplyText: a reply that is present but not a string is not distinguished from a string reply.
