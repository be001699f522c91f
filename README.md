# go-index-dl, modelled in Dafny

go-index-dl mirrors the Go module proxy. It works in two halves:

- The **index scraper** asks the module index (`index.golang.org`) for the module versions published since a checkpoint. It gets back one JSON object per line and turns the answer into a batch of modules.
- The **download client** takes such a batch through a bounded queue of download requests. For each request it:
  - drops module versions it already knows, using an in-flight set and a completed set keyed by `path@version`;
  - can skip optional pseudo-versions;
  - downloads the version list, `.mod`, `.info`, `.zip` and `@latest` files;
  - queues every requirement of the go.mod as a new, required request;
  - retries a failed download while the request's retry budget lasts;
  - counts every outcome.

  When the queue and the in-flight counter are both empty, it resets the counters and returns the latest publish time of the batch as the next checkpoint.

The model has seven Dafny modules:

- `Wrappers` holds Option and Result.
- `Text` models `strings.Split` on newlines, `strings.Contains` and Go's decimal `%v` of an int.
- `Utils` is the map-backed `ConcurrentSet`, a class with a `set` field.
- `Modules` covers the `Module` record, its identity key, its proxy URL, the pseudo-version test and the max-timestamp fold.
- `Index` covers the `IndexClient` class, the endpoint string and the JSON-lines loop of `Scrape`.
- `Downloader` holds `DownloadRequest` and the `Download` pipeline. Download is a pure function of the outcome of each fetch step.
- `Orchestrator` holds the worker step as a function on the whole client state (`WorkerStep`) and the worker loop over many passes (`Run`). It also has the imperative `Stats` and `DownloadClient` classes. `DownloadClient.ProcessNext` is proved to do exactly what `WorkerStep` says.

Time is an integer number of nanoseconds since the Unix epoch, so `time.Unix(0, 0)` is 0. Go's zero `time.Time{}` is the constant `ZeroTime`.

The channel of requests is modelled as two sequences:

- `queue`: the buffer, at most `capacity` long.
- `pending`: the sends that goroutines have started but not yet delivered. These are the retried requests and the dependency requests.

`Deliver` (and `DownloadClient.DeliverSend`) moves one pending send into the buffer.

Some calls go to code outside this repository or touch the network or the disk: `semver.IsValid`, `modfile.Parse`, `json.Unmarshal`, `strftime.Format`, `http.Get`, file reads and `downloadFile`. They enter the model as parameters: function values, or a `FetchEnv` record saying how each step of one download attempt turns out.

## Model

| member | source | states |
|---|---|---|
| Downloader.NewDownloadRequest | dl/download.go:46-53 | the request carries the given module, required flag and retry budget unchanged, is created at `now`, and has the zero finish time |
| Downloader.Tolerated | dl/download.go:270-286 | only a failed fetch whose message holds "invalid escaped module path" is tolerated; Download's contract counts such a list or .mod failure as success |
| Downloader.Plan | dl/download.go:265-328 | a full download makes five fetches, in order: the version list to `list`, then `<base>.mod`, `<base>.info` and `<base>.zip` to `<version>.mod`, `.info` and `.zip`, then `@latest` to `latest`; only the three files of a fixed version are skipped when already present |
| Downloader.Dependencies | dl/download.go:304-309 | one required request per go.mod requirement, in order, each for that requirement's path and version with the client's retry budget and a zero timestamp |
| Downloader.Download | dl/download.go:254-331 | fetches are always a prefix of the plan; success exactly when the version is valid, the cache directory exists, and either a list or .mod fetch failed with "invalid escaped module path" or every step went through; an invalid version errors before any fetch or send; the pipeline stops at the first failing step, and each exit is pinned with its error and fetches: a cache-directory failure fetches nothing; a list error fetches only the list (no error when tolerated); a .mod error (no error when tolerated), a read error or a parse error stops after the .mod; an .info or .zip error names that URL and stops after it; a latest error, or none, fetches the whole plan; the dependency requests are sent exactly when the go.mod was parsed, even if a later fetch fails |
| Downloader.FetchesStopAtFailure | dl/download.go:254-331 | every fetch before the last one issued went through, and when an attempt fails on a fetch, the last fetch issued is the one that failed |
| Modules.Identity | dl/module.go:32-34 | the dedup key is the path, one '@', then the version, each readable back at its position |
| Modules.BaseURL | dl/module.go:19-21 | the base URL lies under `<proxy>/<path>/@v/` and ends in the version |
| Modules.IdentityRoundTrip | dl/module.go:32-34 | the key `path@version` splits back at its first '@' into path and version (module paths hold no '@') |
| Modules.IdentityInjective | dl/module.go:32-34 | two modules share a dedup key exactly when they share path and version; the timestamp plays no part |
| Modules.BaseURLInjective | dl/module.go:19-21 | two modules have the same artifact base URL exactly when they share path and version |
| Modules.IsPseudoVersion | dl/module.go:36-38 | an accepted version is at least 34 characters long, the length of the shortest match of the pattern; IsPseudoVersionSpec states exactly which versions it accepts |
| Modules.IsPseudoVersionSpec | dl/module.go:36-38 | the deterministic matcher behind IsPseudoVersion accepts exactly when the unanchored pattern `v\d+\.\d+\.\d+-(\d+\.)?(\d+\.)?\d{14}-[a-f0-9]{12}` matches somewhere in the version, in both directions |
| Modules.MatchAtSound | dl/module.go:37 | every position the matcher accepts is a match of the pattern |
| Modules.MatchAtComplete | dl/module.go:37 | every match of the pattern, whichever optional groups it uses, is found by the greedy matcher |
| Modules.PseudoVersionExample | dl/module.go:36-38 | the pseudo-version of an untagged commit, `v0.0.0-20191109021931-daa7c04131f5`, is recognised |
| Modules.MaxTimestamp | dl/module.go:42-53 | the latest timestamp is at least the epoch and every element's timestamp, is the epoch or some element's timestamp, and is the epoch for an empty batch |
| Modules.MaxTimestampPermutation | dl/module.go:46-52 | the latest timestamp does not depend on the order of the batch |
| Modules.GetMaxTs | dl/module.go:42-53 | the loop, with its early return on an empty batch, computes MaxTimestamp |
| Index.GetMaxTs | dl/index.go:39-47 | the copy without the early return computes the same MaxTimestamp |
| Index.Endpoint | dl/index.go:88-89 | the request URL starts with the base URL, "/index?since=" and the since value, and ends with the decimal of the limit; EndpointQuery reads the whole query back |
| Index.EndpointQuery | dl/index.go:88-89 | the query string reads back: up to its first '&' stand the base URL and the since value, then "&limit=", then the limit printed in decimal, which parses back as the same integer |
| Index.DecodeLines | dl/index.go:110-121 | the batch holds at most one module per non-empty line |
| Index.DecodeLinesAppend | dl/index.go:111-121 | lines are decoded independently: the batch of a concatenation of lines is the concatenation of their batches |
| Index.BadLineSkipped | dl/index.go:112-119 | an empty line or one that fails to decode is dropped without failing or disturbing the rest of the batch |
| Index.OriginsSound | dl/index.go:110-123 | the k-th module of the batch is what the k-th contributing line decodes to, and those lines are strictly increasing, so the modules keep line order |
| Index.OriginsComplete | dl/index.go:111-121 | every non-empty line that decodes contributes its module |
| Index.IndexClient.constructor | dl/index.go:56-62 | a new client asks the default index, remembers the file flag, reads MAX_TS under the output directory, and starts from the zero time |
| Index.IndexClient.WithExplicitMaxTs | dl/index.go:64-66 | the checkpoint becomes the given time and nothing else changes |
| Index.IndexClient.WithMaxTsLocation | dl/index.go:68-71 | only the MAX_TS location changes |
| Index.IndexClient.LoadMaxTsFile | dl/index.go:73-80 | on a failed load the checkpoint is kept and the error returned; on success it becomes the loaded time |
| Index.IndexClient.Scrape | dl/index.go:82-124 | a transport or read failure gives no modules and that error; a status other than 200 gives no modules and the status with the body; a 200 gives the decoded lines of the body in order; the request asks from the loaded checkpoint, falling back to the client's own |
| Text.Split | dl/index.go:111 | `strings.Split` on newlines yields at least one piece and no piece holds a newline; JoinSplit and SplitJoin make it the inverse of joining |
| Text.JoinSplit | dl/index.go:111 | splitting on newlines loses nothing: joining the pieces back gives the body |
| Text.SplitJoin | dl/index.go:111 | splitting the join of newline-free lines gives the lines back |
| Text.DecimalRoundTrip | dl/index.go:89 | the decimal printed for an int, with its minus sign, parses back as that int |
| Utils.ConcurrentSet.constructor | utils/concurrent_set.go:14-18 | a new set is empty |
| Utils.ConcurrentSet.Set | utils/concurrent_set.go:20-24 | the key is present afterwards, no other key changes, and setting a present key changes nothing |
| Utils.ConcurrentSet.Delete | utils/concurrent_set.go:26-30 | the key is absent afterwards, no other key changes, and deleting an absent key changes nothing |
| Utils.ConcurrentSet.Exists | utils/concurrent_set.go:32-37 | reports membership without changing the set |
| Utils.ConcurrentSet.Values | utils/concurrent_set.go:39-41 | the keys, each exactly once |
| Utils.ConcurrentSet.Len | utils/concurrent_set.go:43-47 | the number of distinct keys |
| Utils.ConcurrentSet.Reset | utils/concurrent_set.go:49-53 | no key is present afterwards |
| Orchestrator.Tally | dl/download.go:167-179 | the counter matching the status goes up by exactly one, and the four outcome counters together by one (none for a drop); the inflight counter is untouched |
| Orchestrator.WorkerStep | dl/download.go:188-211 | one pass consumes the head of the buffer, never reports Pending, and leaves the in-flight set and the batch as they were; WorkerStepSpec pins the rest of the new state |
| Orchestrator.WorkerStepSpec | dl/download.go:188-211 | the request leaves the queue; it is dropped exactly when its key is known, and a drop changes nothing else; it is skipped exactly when it is new, optional and a pseudo-version under the skip policy, and a required request is never skipped; the in-flight set and counter end as they began; exactly the matching outcome counter goes up; only a successful download completes the key; a failed download is re-sent with one retry fewer while retries remain and fails for good otherwise; the dependency requests are sent whenever the download was attempted |
| Orchestrator.Deliver | dl/download.go:201 | the chosen pending send joins the back of the buffer, which keeps its order; it leaves the pending sends and the others stay in order; nothing is lost or duplicated; the sets, counters and batch are unchanged |
| Orchestrator.Run | dl/download.go:188-212 | the worker loop over many passes; RunStops and RunInvariants state what it keeps |
| Orchestrator.RunStops | dl/download.go:188-212 | the loop takes one Download outcome per pass, and stops before the outcomes run out only when nothing is buffered and no pending send can enter the channel |
| Orchestrator.RunInvariants | dl/download.go:188-212 | over any run, the in-flight set and counter and the batch end as they began; the completed set only grows, by one new key per Completed outcome, and the completed counter tracks it; the buffer stays within capacity |
| Orchestrator.FailsEarly | dl/download.go:254-302 | an attempt that neither succeeds nor reaches the go.mod's requirements returns an error and sends nothing |
| Orchestrator.RetriesThenFails | dl/download.go:198-207 | a request with retry budget n whose every attempt fails is attempted exactly n + 1 times: n retries, then one failure; it ends in neither the buffer nor the pending sends and is never completed; the retried and failed counters go up by n and 1 |
| Orchestrator.BatchRequests | dl/download.go:153-159 | one optional request per module of the batch, in batch order, with the client's retry budget |
| Orchestrator.Stats.constructor | dl/download.go:78-86 | all five counters start at zero |
| Orchestrator.Stats.Reset | dl/download.go:88-93 | failed, retried, skipped and completed go to zero; the inflight counter is untouched |
| Orchestrator.DownloadClient.constructor | dl/download.go:95-109 | a one-slot channel, empty sets, zero counters, no batch, no skipping, ten retries per module |
| Orchestrator.DownloadClient.WithRequestCapacity | dl/download.go:127-130 | a new, empty channel of the given size |
| Orchestrator.DownloadClient.WithSkipPseudoVersions | dl/download.go:132-135 | only the skip setting changes |
| Orchestrator.DownloadClient.WithSkipMaxTsWrite | dl/download.go:137-140 | only the checkpoint-writing setting changes |
| Orchestrator.DownloadClient.WithPerModuleRetries | dl/download.go:142-145 | only the retry budget changes |
| Orchestrator.DownloadClient.EnqueueMod | dl/download.go:158-160 | one new request for the module, with the client's retry budget, joins the end of the queue |
| Orchestrator.DownloadClient.EnqueueBatch | dl/download.go:147-156 | the batch becomes the current batch and every module is queued in order as an optional request |
| Orchestrator.DownloadClient.SetInflight | dl/download.go:162-165 | the key joins the in-flight set and the inflight counter goes up by one |
| Orchestrator.DownloadClient.CompleteInflight | dl/download.go:167-182 | the outcome's counter goes up, the key leaves the in-flight set and the inflight counter goes down by one |
| Orchestrator.DownloadClient.ProcessNext | dl/download.go:188-211 | one pass of the worker loop leaves the status and the whole client state exactly as WorkerStep prescribes for the head request and its Download outcome |
| Orchestrator.DownloadClient.Admit | dl/download.go:193-211 | for a new request the rest of the pass ends as WorkerStep prescribes, whether the request is skipped or downloaded |
| Orchestrator.DownloadClient.Skip | dl/download.go:193-197 | a skipped request is marked and unmarked in flight and counted as skipped; nothing else changes |
| Orchestrator.DownloadClient.Attempt | dl/download.go:193-211 | a request that reaches Download ends the pass as WorkerStep prescribes for its outcome |
| Orchestrator.DownloadClient.Settle | dl/download.go:198-211 | after a download: Completed on success, Retry with a re-sent copy carrying one retry fewer while retries remain, Failed otherwise; the dependency requests are sent; only success completes the key |
| Orchestrator.DownloadClient.DeliverSend | dl/download.go:201 | the client state changes exactly as Deliver says |
| Orchestrator.DownloadClient.AwaitInflight | dl/download.go:218-247 | it finishes exactly when the queue and the inflight counter are both empty; until then nothing changes; once finished the outcome counters are reset, and the checkpoint is the latest timestamp of the current batch unless checkpoint writing is off |

## Left out

- Network and file system: `downloadFile`, `createDirIfNotExist`, `fileExists`, the temp-file-then-rename download, the read of the saved go.mod, `loadMaxTsFromFile`, the MAX_TS `os.WriteFile`, `Cleanup` and `http.Get`. They are abstract inputs (`FetchEnv`, `HttpResult`, the loaded time), and `AwaitInflight` returns the checkpoint instead of writing it.
- Foreign libraries: `semver.IsValid`, `modfile.Parse`, `json.Unmarshal`/`Marshal`, `strftime.Format` and `time.Parse`. They are parameters with no assumed behaviour.
- `Module.AsJSON` is not modelled. It serialises a module as the output of the `list modules` command and ends the process if marshalling fails; the command line is outside the model.
- Logging through `slog` is not modelled. Neither is the "unmapped state" branch of completeInflight, which no caller reaches.
- Concurrency is not modelled. Goroutines, the several workers, mutexes and the window between the dedup check and `setInflight` are not covered. Passes of the worker loop run one at a time.
- Backpressure is not modelled. A goroutine's send is `pending` until `Deliver` moves it into the buffer, and no send ever blocks. `EnqueueMod` and `EnqueueBatch` require room in the buffer where the source would block.
- `Orchestrator.Run` delivers only the oldest pending send, and only when the buffer is empty. The runtime may interleave sends in other orders.
- An unbuffered channel (`WithRequestCapacity(0)`) is not modelled. `DownloadClient.WithRequestCapacity` requires a size of at least one.
- Orchestrator.DownloadClient.AwaitInflight: one call is one evaluation of the wait condition. The one-second sleep loop is the caller's repetition.
- Orchestrator.DownloadClient.AwaitInflight: it requires a current batch when the checkpoint is due. With no batch the source logs and then dereferences nil (dl/download.go:237-240).
- Orchestrator.Run: it takes the Download outcome of each pass as an input sequence instead of calling Download, so it covers every way the attempts can turn out.
- Orchestrator.RetriesThenFails: it speaks of a request running alone with no other pending sends. With other traffic its attempts interleave with other requests.
- Environment overrides (`GetEnvOr`, `dl/consts.go`) are not modelled. `GoProxy`, `GoIndex` and `OutputDir` are the default values.
- One `now` serves a whole call. Each `time.Now()` of the source is the same value within one Download or EnqueueBatch.
- `time.Time` is reduced to its UnixNano value. Overflow of UnixNano outside years 1678–2262 is not modelled.
- The second `Module` type, `BaseURL` and `AsJSON` in dl/index.go duplicate those of dl/module.go. One definition serves both. The two `GetMaxTs` copies are both modelled: `Modules.GetMaxTs` and `Index.GetMaxTs`.
- The CLI in `cmd/` is not modelled. Neither are the test file's two-argument `NewDownloadRequest` call and the undefined `WithSkipIfNoListFile` call it makes.
- Index.IndexClient.Scrape: when reading MAX_TS fails, the request uses the client's own checkpoint. That is the zero time `ZeroTime` unless `WithExplicitMaxTs` set it, although the log message claims 1970-01-01. The model follows the code.
