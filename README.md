# Checkpoint and resume for PixivBatchDownloader, in Dafny

This project models two parts of the browser extension:

- The **result store** (`Store`). It collects one record per crawled work and expands each image work into one record per image. It also keeps the ranking list and the work-permission flags.
- The **checkpoint/resume engine** (`Resume`). When a crawl finishes, it saves the results to three object stores: `taskMeta`, `taskData` and `taskStates`.
  - Every chunk of results is written to `taskData` under the key `numAppendNum(taskId, index)`. The key is the decimal texts of the task id and the chunk index, concatenated.
  - When the storage engine refuses a chunk as too large, the writer retries with the END index of the chunk halved: the end becomes `floor(n / 2^try)` of the `n` results, while the start stays at the total of the chunks already stored.
  - When a page with a checkpoint is reloaded, the engine restores its results and download states.
  - Checkpoints older than 30 days are swept away.

Modules, one concern each:

| module | file | contents |
|---|---|---|
| `Wrappers` | wrappers.dfy | `Option` |
| `Text` | text.dfy | `indexOf`, `includes`, `replace` with a string pattern |
| `Decimal` | decimal.dfy | `toString`/`parseInt` on naturals, `NumAppendNum` and its laws |
| `ResultStore` | result_store.dfy | `Result`, `WorkInfo` (every field optional), `AssignResult`, the `Store` class |
| `TaskDb` | task_db.dfy | the three object stores as maps, `add`/`put`/`delete`, the unique `url` index |
| `ChunkWriter` | chunk_writer.dfy | `saveTaskData` as a pure function `Run` of the writer state and the engine's answers |
| `Recovery` | recovery.dfy | the chunk keys `restoreData` requests and the fold that appends the fetched chunks |
| `Resume` | resume.dfy | the `Resume` class: writer, recovery, lifecycle handlers, expiry sweep, `getURL` |

Where each source function is defined:
- `numAppendNum` (Resume.ts:112-114) is `Decimal.NumAppendNum`.
- One pass of `saveTaskData` (Resume.ts:184-230) is `ChunkWriter.Attempt`, and its recursion is `ChunkWriter.Run`.
- The push loop of `restoreData` (Resume.ts:148-154) is `Recovery.Gather`.
- What `addResult` appends to `result` (Store.ts:96-106) is `ResultStore.Expansion`, with each image record built by `ResultStore.PageRecord`.

The rows below name the lemmas and methods whose contracts state the properties of these definitions.

How this model renders the source:

- **Storage engine answers.** The engine's answers to the writer's `add` calls are a parameter `script`. It has one `AddOutcome` per call: accepted, or refused with an optional message.
- **Stateful methods.** `Resume.SaveTaskData` is a loop over the script. It is proved to compute exactly `Run`. Every property of the writer is a lemma about `Run`.
- **Clock, page address and JS `parseInt`.** These are parameters: `now` (from `new Date().getTime()`), `href` (from `window.location.href`) and `parseInt` in `AddResult`.

## The code as written

The model keeps the source's behaviour, including the cases below. Each is proved as a lemma:

- `part` records the END index of each chunk (`tryNum`), while the next chunk starts at the SUM of `part`. After a size refusal, the first chunk is `[0, floor(n/2^try))` and `part` records `floor(n/2^try)`.
  - When that first chunk is not empty and the next add is accepted too, that add is made with `try` back at 0. It records `n`, so the parts add up to more than `n` and the writer never resolves (`RunBackOffNeverResolves`, `RunPastTotalNeverResolves`). If the first chunk is empty, as with `n = 1` and `try = 1`, the parts become `[0, 1]` and the writer resolves.
  - With another refusal in between, the writer can resolve although only some of the results were stored. `RunResolvesShort` is an example: 4 results, parts `[2, 2]`, only the first two stored. Other sequences of answers overshoot instead.
- Recovery requests the keys of chunks `0 ..= meta.part`, one more than were written. The last key is normally absent, so the append loop throws on `null.data` after pushing every real chunk (`GatherRecovery`, `RoundTripSingleChunk`).
- A refusal whose error has no message, or an empty one, neither resolves nor rejects the writer's promise (`RunUnsettled`), so `crawlFinish` never reaches the meta and states writes.
- `numAppendNum` is injective in the chunk index within one task (`NumAppendNumInjective`). Keys of different tasks can collide (`NumAppendNumCollides`).

## Model

| member | source | states |
|---|---|---|
| Text.IndexOf | src/ts/modules/Resume.ts:302 | the result is the first position at which the pattern occurs, or `None` exactly when it occurs nowhere |
| Text.ReplaceFirst | src/ts/modules/Store.ts:104 | only the first occurrence of the pattern is replaced; without one the string is unchanged |
| Decimal.ToDecimal | src/ts/modules/Resume.ts:113 | `toString` yields only digits, `DigitCount(n)` of them, with no leading zero unless `n` is 0 |
| Decimal.ParseToDecimal | src/ts/modules/Resume.ts:113 | `parseInt(n.toString())` gives back `n` |
| Decimal.NumAppendNumValue | src/ts/modules/Resume.ts:112-114 | the key is `id * 10^digits(num) + num` |
| Decimal.NumAppendNumDigit | src/ts/modules/Resume.ts:112-114 | a one-digit index is appended as the last decimal digit: `10 * id + num` |
| Decimal.NumAppendNumInjective | src/ts/modules/Resume.ts:112-114 | distinct chunk indices of one task give distinct keys |
| Decimal.NumAppendNumCollides | src/ts/modules/Resume.ts:112-114 | task 1 chunk 23 and task 12 chunk 3 share the key 123 |
| ResultStore.AssignResult | src/ts/modules/Store.ts:48-78 | each field of the merge is the given value if present, otherwise the listed default |
| ResultStore.AssignResultExtremes | src/ts/modules/Store.ts:48-78 | merging nothing gives the default record; merging every field of `r` gives `r` |
| ResultStore.Pages | src/ts/modules/Store.ts:100-106 | one page record per image: `max(dlCount, 0)` of them |
| ResultStore.ExpansionShape | src/ts/modules/Store.ts:96-107 | a novel adds its merged record; any other work adds `dlCount` records, record `i` having `idNum = parseInt(id)`, id suffixed `_p<i>`, the first `p0` of the url replaced by `p<i>`, and all other fields merged |
| ResultStore.Store.constructor | src/ts/modules/Store.ts:38-46 | empty collections and rank list; work allowed, no quick download, auto download on |
| ResultStore.Store.AddResult | src/ts/modules/Store.ts:81-108 | a work whose defined `idNum` was already added changes nothing; otherwise its id is remembered, its merge is appended to `resultMeta` and its expansion to `result`; nothing else changes |
| ResultStore.Store.AppendPages | src/ts/modules/Store.ts:100-106 | the image loop appends exactly the page records, in order |
| ResultStore.Store.GetRankList | src/ts/modules/Store.ts:112-114 | `Some` exactly when the id has a rank, and then that rank |
| ResultStore.Store.SetRankList | src/ts/modules/Store.ts:116-118 | the id now maps to the rank, every other lookup is unchanged, nothing else changes |
| ResultStore.Store.ResetResult | src/ts/modules/Store.ts:133-139 | every result collection and the rank list are empty; flags and page info are untouched |
| ResultStore.Store.ResetStates | src/ts/modules/Store.ts:141-144 | work allowed and quick download off; `notAutoDownload` and results untouched |
| ResultStore.Store.Handle | src/ts/modules/Store.ts:7-35 | after an event, `allowWork` is its listener's value (unchanged for events without one); `crawlStart` also empties the results, `downloadComplete` also resets the states |
| TaskDb.Add | src/ts/modules/Resume.ts:347-362 | `add` fails exactly when the key is taken; otherwise it adds that one record and keeps the rest |
| TaskDb.Put | src/ts/modules/Resume.ts:366-380 | `put` stores the record under its key and keeps every other record |
| TaskDb.Delete | src/ts/modules/Resume.ts:382-397 | `delete` removes exactly that key and keeps every other record |
| TaskDb.AddMeta | src/ts/modules/Resume.ts:82-86 | adding a meta fails exactly when its id or its url is taken; on success the id and url indexes stay consistent |
| TaskDb.MetaByUrl | src/ts/modules/Resume.ts:306-321 | the url index lookup finds a record exactly when one has that url, and returns a stored record with that url |
| TaskDb.MetaByUrlKey | src/ts/modules/Resume.ts:306-321 | the record found is stored under its own id |
| TaskDb.DeleteFoundMeta | src/ts/modules/Resume.ts:243-246 | deleting the record found for a url leaves no record for it and keeps the indexes consistent |
| ChunkWriter.ReduceIsSum | src/ts/modules/Resume.ts:178-180 | `reduce` of the parts equals their sum |
| ChunkWriter.PartTotal | src/ts/modules/Resume.ts:173-181 | `getPartTotal` is the sum of the parts, 0 for none |
| ChunkWriter.Slice | src/ts/modules/Resume.ts:192 | `slice(from, to)` is empty for `from >= to` and `s[from..to]` within bounds |
| ChunkWriter.TryNum | src/ts/modules/Resume.ts:189 | the chunk end never exceeds the result count, and is at most half of it after a refusal |
| ChunkWriter.TryNumQuotient | src/ts/modules/Resume.ts:189 | the chunk end is `floor(len / 2^try)` |
| ChunkWriter.AttemptAccepted | src/ts/modules/Resume.ts:195-209 | an accepted add stores the chunk, records its end, resets `try`, and resolves exactly when the parts sum to the result count |
| ChunkWriter.AttemptTooLarge | src/ts/modules/Resume.ts:213-219 | a "too large" refusal raises `try` by one and changes nothing else |
| ChunkWriter.AttemptOtherError | src/ts/modules/Resume.ts:213-225 | a refusal with a non-empty message that does not contain "too large", or an add on a taken key, resets `try` and rejects with that message |
| ChunkWriter.RunUnsettled | src/ts/modules/Resume.ts:210-227 | an error whose message is missing or empty leaves the state as it was and never settles |
| ChunkWriter.RunRejectedStops | src/ts/modules/Resume.ts:220-225 | after a rejection no further add is made |
| ChunkWriter.RunFirstAttemptWhole | src/ts/modules/Resume.ts:186-205 | a first attempt that is accepted stores the whole result list as chunk 0 and resolves |
| ChunkWriter.RunPastTotalNeverResolves | src/ts/modules/Resume.ts:192-209 | once the parts sum past the result count, the writer never resolves |
| ChunkWriter.RunBackOffNeverResolves | src/ts/modules/Resume.ts:189-209 | a non-empty accepted chunk after a size refusal, followed by another accepted add, means the writer never resolves |
| ChunkWriter.RunStoresChunks | src/ts/modules/Resume.ts:190-198 | a run extends the parts, overwrites no record, and stores chunk `j` under `numAppendNum(taskId, j)` with the slice the parts describe |
| ChunkWriter.AttemptStores | src/ts/modules/Resume.ts:190-198 | the same for a single attempt |
| ChunkWriter.AcceptedStores | src/ts/modules/Resume.ts:195-198 | an accepted add stores exactly the chunk for the new last part |
| ChunkWriter.AttemptKeeps | src/ts/modules/Resume.ts:210-226 | a refusal, or an add on a taken key, leaves the parts and the store unchanged |
| ChunkWriter.PiecesWhole | src/ts/modules/Resume.ts:192 | one part equal to the result count describes the whole list |
| ChunkWriter.RunResolvesShort | src/ts/modules/Resume.ts:189-205 | four results with a size refusal before each accepted add resolve with parts `[2, 2]`, and only the first two are stored |
| Recovery.ChunkKeys | src/ts/modules/Resume.ts:132-140 | the key list holds `numAppendNum(taskId, i)` at position `i` |
| Recovery.Reversed | src/ts/modules/Resume.ts:140 | `reverse` puts the elements in the opposite order |
| Recovery.GatherFaultSticks | src/ts/modules/Resume.ts:151-153 | once the append loop throws, later keys change nothing |
| Recovery.GatherChunks | src/ts/modules/Resume.ts:143-154 | fetching the first `j` stored chunks appends exactly the slices their parts describe |
| Recovery.GatherRecovery | src/ts/modules/Resume.ts:132-154 | recovery appends every stored chunk in order, then throws on the absent extra key |
| Recovery.RecoveryAfterRun | src/ts/modules/Resume.ts:118-154 | after a writer run, recovery with its chunk count restores the slices the parts describe |
| Recovery.RoundTripSingleChunk | src/ts/modules/Resume.ts:118-154 | a checkpoint written in one chunk is restored exactly |
| Resume.GetURL | src/ts/modules/Resume.ts:301-303 | the result is the longest prefix of the address without `#`, and stops at the first `#` |
| Resume.Retained | src/ts/modules/Resume.ts:411-420 | the records a sweep keeps are exactly those not past the retention window, unchanged |
| Resume.ExpiredIdsExact | src/ts/modules/Resume.ts:400-418 | the ids swept are exactly the stored ids `k` with `now - k > 2592000000` |
| Resume.SweepDone | src/ts/modules/Resume.ts:411-420 | deleting the expired ids leaves exactly the retained records |
| Resume.LeastKey | src/ts/modules/Resume.ts:409-419 | the cursor visits the least remaining key first |
| Resume.RemovalKeepsKeying | src/ts/modules/Resume.ts:416-417 | deleting keys keeps every store keyed by id and the url index unique |
| Resume.SupersedeMeta | src/ts/modules/Resume.ts:242-261 | after the old checkpoint of a url is deleted and the new meta is added, the url index finds the new meta, or none if its id was taken |
| Resume.Resume.constructor | src/ts/modules/Resume.ts:30-40 | not in recovery mode, no task id, no parts, `try` 0, over the opened stores |
| Resume.Resume.SaveTaskData | src/ts/modules/Resume.ts:184-230 | `saveTaskData` leaves exactly the writer state and status `Run` gives |
| Resume.Resume.AddChunk | src/ts/modules/Resume.ts:189-226 | one add and its handling take exactly one `Attempt` step, including the unsettled case for a missing or empty message |
| Resume.Resume.RestoreData | src/ts/modules/Resume.ts:118-170 | with no checkpoint for the page, only `flag` is cleared; otherwise the task id is adopted, keys `0 ..= part` are requested, the fetched chunks are appended in order, the saved states are returned and `flag` is set |
| Resume.Resume.DataIdList | src/ts/modules/Resume.ts:132-140 | the descending loop and its reversal give the ascending recovery keys |
| Resume.Resume.PushChunks | src/ts/modules/Resume.ts:143-154 | the results gain exactly what the fold gathers, and the loop throws as the fold says |
| Resume.Resume.CrawlFinish | src/ts/modules/Resume.ts:237-269 | the handler ignores its own event. Otherwise it replaces the page's checkpoint: old meta and states deleted, task id `now`, the writer run, and the new meta and states added only if the writer resolved |
| Resume.Resume.ForgetPage | src/ts/modules/Resume.ts:243-247 | the meta and states of the page's old checkpoint are deleted |
| Resume.Resume.Checkpoint | src/ts/modules/Resume.ts:254-268 | the new meta (id, url and the number of chunks) and the states record are added, each only when its add succeeds |
| Resume.Resume.DownloadSuccess | src/ts/modules/Resume.ts:273-282 | the current task's states record is upserted; with no task id nothing changes |
| Resume.Resume.DownloadComplete | src/ts/modules/Resume.ts:285-290 | the current task's meta and states are deleted and recovery mode ends; its chunks stay |
| Resume.Resume.CrawlStart | src/ts/modules/Resume.ts:293-297 | recovery mode ends and `part` is emptied |
| Resume.Resume.ClearExpired | src/ts/modules/Resume.ts:400-425 | the sweep keeps exactly the metas within the retention window and removes the states of exactly the expired ids |

## Left out

- Opening the database and creating its stores (`initDB`) is left out. The stores are constructor parameters; the `keyPath: 'id'` discipline and the unique url index appear as the invariant `Valid`.
- Promise timing and interleaving are left out: the handlers are modelled as running to completion one at a time. The fetch-all in `restoreData` is not awaited, and the sweep's deletes run while its cursor is still open.
- The writes that are not awaited (`addData` of meta and states, `putData`, `deleteData`) are modelled as taking effect immediately. Their failures are silent, as in the source.
- Events between the modules (`EVT.fire`, and `addResult` itself) and `downloadStates.replace` are not modelled. `RestoreData` returns the restored states instead.
- The clock and `window.location.href` are parameters. `console.log`, `log.error` and the unused `testData` are left out.
- `Settings.d.ts` is not part of this model, since no modelled operation reads it. `pageInfo` is only stored, never operated on.
- `parseInt` in `AddResult` is a parameter, because ids are arbitrary strings.
- JavaScript number precision is not modelled: `numAppendNum` uses unbounded naturals, so keys above 2^53 and exponent notation in `toString` are not captured. `Math.pow(0.5, try)` is modelled exactly; this matches the float arithmetic until `try` exceeds the exponent range.
- The download states type `DLStatesI` is a type parameter `S`.
- `store.result` is assumed not to change while the writer runs.
- Attempt: an `add` on a key that is already taken is modelled as refused with the store's ConstraintError message (`KeyExistsMessage`), whatever the script says. That message is non-empty and does not contain "too large". The engine's actual message text, and the order in which it checks key and size, are not in the source; this is an assumption.
