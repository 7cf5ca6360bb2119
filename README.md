# Agro IA analysis history — a Dafny model

Agro IA is a crop-pest detection app. A user photographs a plant, the backend returns a simulated
analysis (detected pests, image quality, recommendations), and the browser keeps a history of
analyses in one persistent storage slot. This project models the logic around that history:

- **`History`** (`history.dfy`): the `HistoryService` singleton as a class whose one field is the
  storage slot (`Absent | Corrupt | Stored(items)`). It models saving with the 50-record cap,
  reading with degradation to `[]`, lookup and delete by id, the five-criteria filter, the
  statistics, export/import and clear.
- **`PestResults`** (`results.dfy`): the `PestDetection` / `AnalysisResult` records and
  `getAnalysisStats` over a list of results. This includes the count record, `Object.keys` order and
  the `reduce` that picks the most common pest.
- **`PestAnalyzer`** (`analyzer.dfy`): the deterministic part of the backend's simulated
  analysis. The `Math.random()` draws are a parameter. Also the upload MIME-type filter.
- **`HistoryView`** (`history_view.dfy`): the history dialog's quick filters and summary line.
- **`Dashboard`** (`dashboard.dfy`): the "time ago" label, the five-item recent-activity list and
  the "Sin Plagas" card.
- **`Registration`** (`register.dfy`): the ordered registration form validator and its e-mail
  pattern, plus the server's repeated field checks.
- **`Seqs`**, **`Text`**, **`Common`**: `Array.prototype.filter`, the JavaScript string operations
  the code relies on (`trim`, `toLowerCase`, `includes`, `startsWith`, `length`, number
  rendering), and `Option` / `Completion` wrappers.

Conventions:

- A property read from a missing `result` throws a TypeError in JavaScript. It is modelled as the
  `TypeError` alternative of `Completion`.
- Clock readings are integer milliseconds. The clock, the generated id, the random draws, the image
  metadata and the parsed import document are parameters.
- Confidences and averages are exact reals.

The statistics over results pick the LAST key of maximal count on a tie, because the comparison
in `reduce` is strict (`>`). That key is the one whose first appearance comes last
(`PestResults.MostCommonPestTieBreak`); a first-key-wins tie rule is not what the code does and
is not modelled.

## Model

| member | source | states |
|---|---|---|
| History.Read | agro-ia/src/services/historyService.ts:45-60 | An absent, empty/unparseable or non-array slot reads as `[]`; a stored list reads back unchanged, in stored order |
| History.Serialised | agro-ia/src/services/historyService.ts:40-55 | A record written back after `getHistory` keeps every field but its timestamp. A valid date is written as its time and reads back as the same time; an invalid or missing one is written as `null`, which reads back as time 0 |
| History.SerialisedSettles | agro-ia/src/services/historyService.ts:40-55 | Rewriting settles: the time read back is fixed after one write and the record itself after two |
| History.SerialisedImportable | agro-ia/src/services/historyService.ts:184-188 | A written-back record passes the import check iff it had a truthy id, a valid date and a result: an invalid date was written as `null`, which is falsy |
| History.Rewritten | agro-ia/src/services/historyService.ts:40 | `JSON.stringify` of a read history: same length, each record serialised in place |
| History.SaveStep | agro-ia/src/services/historyService.ts:32-40 | The written list has length `min(old + 1, 50)`, the new record (serialised) at index 0 and each old record serialised and shifted by one, in the old order |
| History.SaveStepSame | agro-ia/src/services/historyService.ts:32-40 | A save treats two lists that differ only in timestamps alike: the results differ only in timestamps |
| History.SaveOneMore | agro-ia/src/services/historyService.ts:32-38 | One more save puts its record in front of the capped list, timestamps aside |
| History.RepeatedSaves | agro-ia/src/services/historyService.ts:32-40 | After saving records in call order, the history is those records newest first followed by the earlier history, cut to 50, up to the rewriting of timestamps |
| History.OldestEvicted | agro-ia/src/services/historyService.ts:35-38 | After saving at least 50 records with distinct ids, exactly 50 remain and none of the earliest `n - 50` ids is among them |
| History.HistoryStore.SaveAnalysis | agro-ia/src/services/historyService.ts:17-42 | Returns exactly the record it stored: given id and clock reading, `result` = the argument, metadata fields copied or absent. The slot becomes the capped list with that record first, unchanged, and every older record serialised (invalid dates become `null`); having results and being consistent are preserved |
| History.FindById | agro-ia/src/services/historyService.ts:63-66 | `null` iff no record has the id; otherwise the record with the id at the first such position |
| History.HistoryStore.DeleteAnalysis | agro-ia/src/services/historyService.ts:69-79 | Returns true iff some record had the id. It then stores the others in order, each serialised, and none with the id; otherwise the slot is left untouched |
| History.DeleteTwice | agro-ia/src/services/historyService.ts:69-79 | A second delete of the same id returns false and no record with that id remains |
| History.GetHistoryStats | agro-ia/src/services/historyService.ts:82-126 | Throws iff some record lacks a result. Otherwise total = length, pest count ≤ total, recent count ≤ total and 0 iff no readable date falls within the last 7 days; an empty history gives zeros, `null` and average 0 |
| History.HistoryStatsAgree | agro-ia/src/services/historyService.ts:93-117 | On records that all have results, total, pest count, most common pest and average confidence equal those of `getAnalysisStats` on the results |
| History.ItemAggregatesAgree | agro-ia/src/services/historyService.ts:94-117 | The per-record pest count, flattened pest labels and sum of mean confidences equal the same aggregates over the bare results |
| History.HistoryStore.FilterHistory | agro-ia/src/services/historyService.ts:129-165 | Throws iff `hasPest` is given and some record lacks a result, or `pestType` is given and a resultless record passes the date and crop criteria. Otherwise returns the in-order subsequence satisfying every supplied criterion |
| History.StageAdvance | agro-ia/src/services/historyService.ts:136-162 | Applying one more criterion to what the earlier criteria kept equals filtering once by their conjunction; an unsupplied criterion changes nothing |
| History.PestTypeStepThrows | agro-ia/src/services/historyService.ts:156-162 | The `pestType` step meets a resultless record exactly when one passes the date and crop criteria |
| History.HistoryStore.ExportHistory | agro-ia/src/services/historyService.ts:168-171 | The exported document is an array of the current history in order, each record serialised (an invalid or missing date becomes `null`) |
| History.HistoryStore.ImportHistory | agro-ia/src/services/historyService.ts:174-196 | Succeeds iff the document is an array whose every element has a truthy id, timestamp and result. It then stores the elements verbatim with no cap; otherwise the slot is unchanged |
| History.ExportImportRoundTrip | agro-ia/src/services/historyService.ts:168-196 | Succeeds iff every record has a truthy id, a valid date and a result (a `null` date fails the import check). It then stores the serialised history: same length, same fields and same times as before; otherwise nothing changes |
| History.HistoryStore.ClearHistory | agro-ia/src/services/historyService.ts:199-201 | The slot is removed and the history reads as `[]` |
| PestResults.PestLabels | agro-ia/src/services/pestAnalysisService.ts:90 | The flattened pest labels are empty iff no result has a detection |
| PestResults.Tally | agro-ia/src/services/pestAnalysisService.ts:91-94 | The count record has exactly the labels as keys, each mapped to its number of occurrences |
| PestResults.Keys | agro-ia/src/services/pestAnalysisService.ts:96-97 | The keys are the labels, each once, in order of first appearance |
| PestResults.PickMax | agro-ia/src/services/pestAnalysisService.ts:97 | The reduce returns a key of maximal count after which every key has a strictly smaller count |
| PestResults.MostCommonPest | agro-ia/src/services/pestAnalysisService.ts:96-98 | `null` iff there are no labels; otherwise one of the labels |
| PestResults.MostCommonPestIsMaximal | agro-ia/src/services/pestAnalysisService.ts:96-97 | The most common pest occurs at least as often as every label |
| PestResults.MostCommonPestTieBreak | agro-ia/src/services/pestAnalysisService.ts:97 | Any label as frequent as the result first appears no later than it: ties go to the label first seen last |
| PestResults.GetAnalysisStats | agro-ia/src/services/pestAnalysisService.ts:81-112 | total = length; pest count ≤ total, 0 iff no result reports a pest and = total iff all do; most common `null` iff no detections; average is the mean of per-result means; empty list gives zeros |
| PestResults.InfestedCount | agro-ia/src/services/pestAnalysisService.ts:87-88 | The infested count is 0 exactly when no result reports a pest, and the total exactly when all do |
| PestResults.AverageConfidenceInRange | agro-ia/src/services/pestAnalysisService.ts:100-104 | When every confidence lies in [0, 1], so does the average of per-result means (a result without detections counts 0) |
| PestResults.MeanConfidenceBounds | agro-ia/src/services/pestAnalysisService.ts:102 | Dividing by `max(#detections, 1)` keeps one result's mean within [0, 1] |
| PestAnalyzer.AnalyzeImageForPests | backend/src/controllers/pestAnalysisController.ts:46-161 | `hasPest` iff there are detections. Each detection comes from its own draws. Brightness and contrast are the next two draws times 100, and quality follows the thresholds. Dimensions default to 0 and file size is the buffer length. The recommendations are exactly the pest advice followed by the lighting tip if quality is poor and the framing tip if off centre; each conditional message is present iff its condition holds |
| PestAnalyzer.DrawDetections | backend/src/controllers/pestAnalysisController.ts:87-103 | No detection when the first draw is ≥ 0.35, else 1 or 2 (2 iff the second draw ≥ 0.5). Each detection copies a catalogue entry and has confidence `0.7 + 0.3·r` in [0.7, 1) |
| PestAnalyzer.Detect | backend/src/controllers/pestAnalysisController.ts:94-101 | A detection's confidence `0.7 + 0.3·r` of a draw lies in [0.7, 1) |
| PestAnalyzer.DetectFromCatalogue | backend/src/controllers/pestAnalysisController.ts:94-101 | Every field of a detection but the confidence is copied from one entry of the pest list |
| PestAnalyzer.DetectionsValid | backend/src/controllers/pestAnalysisController.ts:92-102 | Detections built from valid draws all come from the pest list and have confidence in [0.7, 1) |
| PestAnalyzer.DrawPests | backend/src/controllers/pestAnalysisController.ts:92-102 | The loop yields exactly `pestCount` detections, the `i`-th built from draws `2 + 2i` and `3 + 2i` |
| PestAnalyzer.ImageAdvice | backend/src/controllers/pestAnalysisController.ts:136-145 | The exact list: the pest advice, then the lighting tip iff quality is poor, then the framing tip iff both dimensions are present and non-zero and the aspect ratio is outside [0.8, 1.2] |
| PestAnalyzer.ScaledIndex | backend/src/controllers/pestAnalysisController.ts:91-94 | `Math.floor(r·n)` of a draw is an index below `n` |
| PestAnalyzer.PestAdvice | backend/src/controllers/pestAnalysisController.ts:112-134 | The exact list: with detections, the two fixed messages, then the warning iff some severity is high, then the aphid tip iff "Pulgón" and the whitefly tip iff "Mosca blanca" is reported, in that order. Without: exactly the three fixed messages. No photo tip appears |
| PestAnalyzer.AdviceMentions | backend/src/controllers/pestAnalysisController.ts:112-134 | The advice has 2 to 5 items when there are detections, holds each conditional message exactly when its condition holds, and never a photo tip |
| PestAnalyzer.RecommendationsMention | backend/src/controllers/pestAnalysisController.ts:112-145 | The full list begins with the fixed messages of its branch and holds each conditional message, including the lighting and framing tips, exactly when its condition holds |
| PestAnalyzer.QualityOf | backend/src/controllers/pestAnalysisController.ts:108-109 | Quality is good exactly when brightness > 50 and contrast > 40, and poor exactly when brightness ≤ 30 or contrast ≤ 25 (fair otherwise) |
| PestAnalyzer.QualityMonotone | backend/src/controllers/pestAnalysisController.ts:108-109 | A brighter or more contrasted image never gets a lower grade |
| PestAnalyzer.OffCentreByIntegers | backend/src/controllers/pestAnalysisController.ts:140-145 | For nonzero dimensions, the framing tip's ratio test is `5w < 4h` or `5w > 6h` |
| PestAnalyzer.FileFilter | backend/src/controllers/pestAnalysisController.ts:14-20 | A file is accepted iff its MIME type starts with `image/`; otherwise it is rejected with the fixed message |
| HistoryView.ApplyFilter | agro-ia/src/components/HistoryModal.tsx:231-252 | The active filter is always the argument. `withPests`/`withoutPests` throw iff a record lacks a result, else yield exactly the in-order filter of the history by the pest flag. `recent` yields exactly the in-order filter by a date within 7 days; anything else leaves the history unchanged |
| HistoryView.PestFiltersPartition | agro-ia/src/components/HistoryModal.tsx:237-241 | With results everywhere, the two pest filters split the history: sizes add up and multisets sum to the history's |
| HistoryView.WithPestsMatchesStats | agro-ia/src/components/HistoryModal.tsx:237-238 | The "with pests" list is as long as the statistics' pest count |
| HistoryView.WithoutPestsMatchesStats | agro-ia/src/components/HistoryModal.tsx:240-241 | The "without pests" list is as long as total minus pest count |
| HistoryView.RecentMatchesStats | agro-ia/src/components/HistoryModal.tsx:243-245 | The "recent" list is as long as the statistics' recent count |
| HistoryView.SummaryText | agro-ia/src/components/HistoryModal.tsx:290-296 | Throws iff the record has no result; "Sin plagas detectadas" without pests; otherwise starts with the detection count and ends in "s" iff the count exceeds 1. The dashboard's `getActivityText` (agro-ia/src/components/DashboardStats.tsx:210-216) is the same expression |
| HistoryView.SummaryTextDeterminesCount | agro-ia/src/components/HistoryModal.tsx:290-296 | Two records with pests and the same summary line have the same number of detections |
| Dashboard.ElapsedSince | agro-ia/src/components/DashboardStats.tsx:196-208 | An invalid date is unknown. Under a minute (or in the future) is "just now". Otherwise `n` minutes (1-59), hours (1-23) or days, with `unit·n ≤ elapsed < unit·(n+1)` |
| Dashboard.FormatTimeAgo | agro-ia/src/components/DashboardStats.tsx:196-208 | Every label starts with "Hace " |
| Dashboard.RenderInjective | agro-ia/src/components/DashboardStats.tsx:200-207 | Different buckets give different labels |
| Dashboard.RecentActivity | agro-ia/src/components/DashboardStats.tsx:190-194 | The first `min(5, length)` records, in order |
| Dashboard.RecentActivityAfterSave | agro-ia/src/components/DashboardStats.tsx:190-194 | After a save, recent activity is the new record followed by the previous first four, each as the save wrote it back |
| Dashboard.PestFreeCountIsPestFreeRecords | agro-ia/src/components/DashboardStats.tsx:241 | "Sin Plagas" (total − pest count) is the number of records without pests, hence never negative |
| Registration.ValidateForm | agro-ia/src/pages/Register.tsx:223-252 | Checks run in order and the first failure decides the message. Missing fields iff some field is blank; then the e-mail shape; then password length < 6 UTF-16 units; then mismatch. Valid iff all pass |
| Registration.EmailPatternCharacterisation | agro-ia/src/pages/Register.tsx:233-234 | The pattern matches iff: no white space, exactly one `@` with something before it, and a `.` after it with a character on each side |
| Registration.ServerRegisterCheck | backend/src/controllers/authController.ts:13-36 | The server's field checks pass iff name, e-mail and password are non-empty, the e-mail is well formed and the password has at least 6 units |
| Registration.ValidFormPassesServerChecks | backend/src/controllers/authController.ts:13-36 | A form the client accepts passes the server's field checks |
| Text.TrimEmptyIffBlank | agro-ia/src/pages/Register.tsx:227 | `!s.trim()` holds exactly for strings made only of white space |
| Text.Contains | agro-ia/src/services/historyService.ts:150-162 | `includes` holds iff the needle occurs at some position |
| Text.NatToStringRoundTrip | agro-ia/src/components/HistoryModal.tsx:293 | The rendered count reads back as the same number |
| Text.Utf16Length | agro-ia/src/pages/Register.tsx:240 | `length` counts between one and two units per character |
| Seqs.Filter | agro-ia/src/services/historyService.ts:71 | The filter keeps exactly the elements that pass, and no more of them than the input has |
| Seqs.FilterKeepsAll | agro-ia/src/services/historyService.ts:71-75 | The filtered list is as long as the input iff every element passes (the delete's "nothing found" test) |
| Seqs.FilterFilter | agro-ia/src/services/historyService.ts:136-162 | Filtering twice equals filtering once by the conjunction |
| Seqs.FilterPartition | agro-ia/src/components/HistoryModal.tsx:237-241 | A predicate and its negation split a list: lengths add up and multisets sum to the whole |

## Left out

- JSON text: the storage slot and the import document are modelled by what `JSON.parse` yields (`Slot`, `Json`), so `JSON.stringify`/`parse` themselves are not verified. Their effect on timestamps is modelled (`History.Serialised`): a valid `Date` is written as its time, an invalid one as `null`. Numeric timestamps in an imported document are not modelled.
- Date parsing: a stored timestamp is one the store wrote (a time), `null`, or text paired with the time `new Date(text)` yields, if any. ISO date syntax and the millisecond-to-text rendering are not modelled; a written time reads back as the same time.
- The clock (`Date.now`, `new Date()`), `Math.random`, `generateId` and the image metadata from `sharp` are parameters. Id uniqueness is not guaranteed by the code and is not claimed.
- History.HistoryStore.SaveAnalysis: the generated id is a parameter, so two saves can share an id exactly as they could if `generateId` collided.
- PestResults.Keys: `Object.keys` lists integer-like keys (such as "12") first in ascending numeric order. The model assumes pest names are not integer-like and uses first-appearance order. Prototype-named labels such as `__proto__` are not modelled either.
- Floating point: confidences, brightness, contrast and averages are exact reals. So `0.7 + 0.3·r` is strictly below 1, and sums are exact.
- Records in storage are assumed to be objects. Array elements that are not objects, and a present `result` that is not a well-formed analysis result, are not modelled.
- The dialog's filtered list when `applyFilter` throws is not modelled beyond the `TypeError`: the list keeps its previous value.
- Errors thrown by `sharp`, and the multer file-size limit (10 MB at backend/src/controllers/pestAnalysisController.ts:12), are library behaviour and are left out.
- `toLowerCase` is modelled for ASCII letters only; Unicode case mapping is not.
- Concurrency: last-writer-wins between browser tabs is not modelled.
- Authentication, SQL, HTTP handlers, e-mail, camera capture and UI markup are I/O or foreign library calls and are not part of this model.
