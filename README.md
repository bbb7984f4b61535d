# huobao-canvas core, modelled in Dafny

huobao-canvas is a browser canvas for AI generation workflows. Its core has three state-holding parts, and this project models each of them and proves properties about them.

- **The project store** (`src/stores/projects.js`). This is the ordered list of projects, each owning a graph of nodes, edges and a viewport. The store creates, updates, canvas-updates, deletes, duplicates, renames, loads and bootstraps projects, and persists the list to `localStorage`. When storage is full it retries once with a degraded payload.
- **The generation hooks** (`src/hooks/useApi.js`):
  - the lifecycle record (`loading`, `error`, `status`) that every hook carries;
  - a chat session that accumulates a streamed answer and commits the exchange to its history;
  - image generation, with its request fallbacks and response normalisation;
  - video generation, which either resolves at once or polls a task at most 120 times while updating a progress counter.
- **The model registry** (`src/stores/models.js`). It holds three lists of model records seeded from the static catalogue (`src/config/models.js`). It merges remote model records into those lists, deduplicated by key, and answers the option lookups of the generation forms.

The modules, one per file:

- `js.dfy` (`Js`): the JavaScript values the core handles (JSON-like data and `undefined`), truthiness, `||`, `?.`, strict equality, spread, errors and provider replies.
- `catalogue.dfy` (`Catalogue`): the static catalogue constants the core reads, `getModelByName`, and `find` by key.
- `canvas.dfy` (`Canvas`): the project record, canvas patches, the thumbnail derivation and the degraded save payload.
- `sorting.dfy` (`Sorting`): the sorted view of `getSortedProjects`.
- `storage.dfy` (`Storage`): `localStorage` as a port whose writes can fail.
- `projects.dfy` (`Projects`): class `ProjectStore`.
- `lifecycle.dfy` (`Lifecycle`): class `ApiState`.
- `chat.dfy`, `image.dfy`, `video.dfy` (`Chat`, `Image`, `Video`): one class per hook.
- `models.dfy` (`Models`): class `ModelRegistry` and the pure merge and option lookups.

How the model is built:

- State the source updates in place is a class whose methods have `modifies` clauses. Each method's postcondition ties its new state to a specification function.
- Expression-level code (the thumbnail choice, the degraded payload, the response normalisation, the option lookups) is made of functions and lemmas.
- The clock and the id generator are parameters.
- Every provider call is an input:
  - the streamed chat answer is its chunks and the way the stream ends;
  - the image and submission replies are a response or a rejection;
  - the status polls are a function from the attempt index to a reply.

Two facts about the code that the model follows:

- `updateProjectCanvas` (`src/stores/projects.js:142-175`) edits the record where it is and does not move it in the list, so `UpdateProjectCanvas` keeps every project at its index.
- The JSDoc of the video `generate` lists `duration`, but the code reads `params.dur` (`src/hooks/useApi.js:193`, `:214`). The model reads `dur`.

## Model

| member | source | states |
|---|---|---|
| Catalogue.FindByKey | src/config/models.js:155-158 | `find(m => m.key === key)`: `None` exactly when no record's key is strictly equal to the key; otherwise the first record with that key; `GetModelByName` is this search over the whole catalogue |
| Catalogue.FindByKeyAppend | src/stores/models.js:119-121 | searching a concatenation finds in the first list before the second |
| Catalogue.CatalogueDefaults | src/config/models.js:39-116 | no static model names an endpoint or turns off `async`, and each default size is absent or 2048x2048 |
| Catalogue.ImageModelsPlain | src/config/models.js:39-74 | the three image models have plain defaults |
| Catalogue.VideoModelsPlain | src/config/models.js:86-106 | the video models have plain defaults |
| Catalogue.ChatModelsPlain | src/config/models.js:109-116 | the chat models have plain defaults |
| Catalogue.PlainAppend | src/config/models.js:156 | plain defaults hold elementwise over a concatenation of catalogues |
| Canvas.Patched | src/stores/projects.js:123-127 | `{...project, ...data, updatedAt}`: each field the patch carries overrides the project's and each field it lacks is kept; `updatedAt` is now even when the patch carries one |
| Canvas.LatestMediaFrom | src/stores/projects.js:154-163 | the chosen node is a media node (image or video with a truthy `data.url`) with the greatest `updatedAt \|\| createdAt \|\| 0`, and the earliest such on ties; `None` exactly when no node qualifies |
| Canvas.LatestMediaUnique | src/stores/projects.js:154-163 | the three properties of the chosen node single out one index |
| Canvas.DerivedThumbnail | src/stores/projects.js:162-170 | without a media node the thumbnail is kept; otherwise it is the latest node's thumbnail (a video's `thumbnail \|\| url`, an image's `url`), which is truthy |
| Canvas.NewerNodeGivesThumbnail | src/stores/projects.js:156-163 | of two media nodes with distinct times, the newer one gives the thumbnail in either list order |
| Canvas.CanvasUpdated | src/stores/projects.js:146-171 | only the supplied canvas keys change, `updatedAt` is now, id, name and `createdAt` are kept, and the thumbnail is derived only when `nodes` is supplied; the helper `MergeCanvas` takes each supplied key over the old one |
| Canvas.StripNode | src/stores/projects.js:60-66 | an image node with a truthy `base64` loses exactly that data key and keeps its id, kind, time and every other data field; any other node is returned unchanged |
| Canvas.StripThumbnail | src/stores/projects.js:70 | a string thumbnail starting with `data:` becomes `''`; any other thumbnail is kept |
| Canvas.StripNodes | src/stores/projects.js:60-67 | one stripped node per node, in order |
| Canvas.Degraded | src/stores/projects.js:56-71 | one degraded project per project, in order |
| Canvas.DegradedIsClean | src/stores/projects.js:56-71 | no image node of the payload keeps `base64` and no thumbnail is a `data:` URL |
| Canvas.DegradedKeepsTheRest | src/stores/projects.js:56-71 | project fields, edges, viewport, node ids, kinds and order, non-image nodes and every other data key survive |
| Canvas.DegradedIdempotent | src/stores/projects.js:56-71 | degrading twice equals degrading once |
| Sorting.Lower | src/stores/projects.js:257-260 | lower-casing keeps the length, maps each of `A`-`Z` to the letter 32 code points higher, and keeps every other character |
| Sorting.LexIrreflexive | src/stores/projects.js:262-266 | string `<` is irreflexive |
| Sorting.LexTransitive | src/stores/projects.js:262-266 | string `<` is transitive |
| Sorting.LexTotal | src/stores/projects.js:262-266 | distinct strings are ordered one way or the other |
| Sorting.LessIsStrictTotal | src/stores/projects.js:249-266 | the key order in either direction is a strict total order |
| Sorting.Insert | src/stores/projects.js:247-248 | insertion adds exactly the one project (multiset) |
| Sorting.InsertSorted | src/stores/projects.js:248-267 | inserting into a sorted view keeps it sorted |
| Sorting.SortedView | src/stores/projects.js:247-268 | the view is a permutation of the list |
| Sorting.SortedViewIsSorted | src/stores/projects.js:245-270 | the view is a permutation of the same length, and no project comes before one whose key the comparator orders strictly ahead of it |
| Storage.Write | src/stores/projects.js:51 | a successful write stores the value under the key; a failing one changes nothing; one scripted outcome is used up |
| Storage.SaveState | src/stores/projects.js:49-83 | a save writes the list; on a quota error only, it retries once with the degraded list; another error gets no retry; other keys are untouched |
| Storage.LoadedList | src/stores/projects.js:27-43 | a missing or empty entry keeps the list, text that does not parse empties it, a stored list is loaded |
| Storage.SaveThenLoad | src/stores/projects.js:27-83 | a successful save is read back as saved, a retried one is read back degraded, and a failed one leaves what was stored |
| Storage.LocalStorage.constructor | src/stores/projects.js:29 | the port starts with the given items and scripted write outcomes |
| Storage.LocalStorage.GetItem | src/stores/projects.js:29 | `getItem` gives the stored entry, or `null` when the key is absent |
| Storage.LocalStorage.SetItem | src/stores/projects.js:51 | `setItem` reports the scripted outcome and changes the port as `Write` says |
| Projects.FindIndexFrom | src/stores/projects.js:120 | `findIndex` over a suffix: -1 exactly when no project there has the id, else the first index with it |
| Projects.FindIndex | src/stores/projects.js:120-121 | -1 exactly when no project has the id, else the first index with it |
| Projects.MoveToFront | src/stores/projects.js:130-131 | the record is first, followed by the others in their old order, with the same length |
| Projects.MoveToFrontPermutes | src/stores/projects.js:130-131 | moving to the front replaces one record and keeps the multiset of all others |
| Projects.WithoutId | src/stores/projects.js:192 | exactly the projects without the id remain, and the list never grows |
| Projects.WithoutIdCounts | src/stores/projects.js:192 | a project without the id keeps its multiplicity, and a project with it occurs no more |
| Projects.WithoutIdAppend | src/stores/projects.js:192 | filtering a concatenation filters each part in order, so the kept projects keep their relative order |
| Projects.WithoutAbsentId | src/stores/projects.js:192 | deleting an absent id changes nothing |
| Projects.Duplicate | src/stores/projects.js:208-214 | the copy has the new id, the name suffixed with ` (副本)`, equal fresh timestamps, and the source's thumbnail and canvas |
| Projects.SampleCanvasShape | src/stores/projects.js:283-316 | the example graph has nodes `node_0` (text) and `node_1` (imageConfig), the one edge `node_0 -> node_1`, unique node ids and no dangling edge |
| Projects.PrependKeepsIdsUnique | src/stores/projects.js:108 | prepending a record with a fresh id keeps ids unique |
| Projects.MoveToFrontKeepsIdsUnique | src/stores/projects.js:123-131 | moving a record to the front with its id kept keeps ids unique |
| Projects.WithoutIdKeepsIdsUnique | src/stores/projects.js:192 | deleting keeps ids unique |
| Projects.ProjectStore.constructor | src/stores/projects.js:14-17 | the store starts with no projects and no current project |
| Projects.ProjectStore.CurrentProject | src/stores/projects.js:20-22 | a project exactly when the current id is set and present; it has that id and is in the list |
| Projects.ProjectStore.GetProjectCanvas | src/stores/projects.js:182-185 | the canvas of the first project with the id; `null` exactly when the id is absent |
| Projects.ProjectStore.GetSortedProjects | src/stores/projects.js:245-270 | a permutation of the list with the same length, ordered by the key; the store is not changed |
| Projects.ProjectStore.LoadProjects | src/stores/projects.js:27-43 | the list becomes `LoadedList` of what storage holds |
| Projects.ProjectStore.SaveProjects | src/stores/projects.js:49-83 | storage becomes `SaveState` of the list |
| Projects.ProjectStore.CreateProject | src/stores/projects.js:90-112 | returns the new id; one record with that id, the name (by default `未命名项目`), thumbnail `''`, equal timestamps and an empty graph is prepended to the unchanged old list, which is then saved; the record is built by `NewProject` |
| Projects.ProjectStore.UpdateProject | src/stores/projects.js:119-135 | false and nothing changed or saved for an unknown id; otherwise the patched record is moved to the front and the list saved |
| Projects.ProjectStore.UpdateProjectCanvas | src/stores/projects.js:142-175 | false and nothing changed for an unknown id; otherwise the record is replaced in place by `CanvasUpdated` and the list saved; every project keeps its index |
| Projects.ProjectStore.DeleteProject | src/stores/projects.js:191-194 | the list becomes `WithoutId` of the old list and is saved |
| Projects.ProjectStore.DuplicateProject | src/stores/projects.js:201-220 | `null` and nothing changed for an unknown id; otherwise the new id is returned and the duplicate is prepended to the unchanged list |
| Projects.ProjectStore.RenameProject | src/stores/projects.js:227-229 | the renamed record, with `updatedAt` now, moves to the front; the others keep their order |
| Projects.ProjectStore.UpdateProjectThumbnail | src/stores/projects.js:236-238 | the record with the new thumbnail, with `updatedAt` now, moves to the front; the others keep their order |
| Projects.ProjectStore.InitProjectsStore | src/stores/projects.js:275-320 | a non-empty loaded list is kept without a write; otherwise exactly the example project remains, saved twice (created, then given the example graph) |
| Lifecycle.ApiState.constructor | src/hooks/useApi.js:20-22 | idle, not loading, no error |
| Lifecycle.ApiState.Reset | src/hooks/useApi.js:24-28 | idle, not loading, no error |
| Lifecycle.ApiState.SetLoading | src/hooks/useApi.js:30-33 | `setLoading(true)` gives running; `setLoading(false)` changes only `loading`; a coherent record stays coherent |
| Lifecycle.ApiState.SetError | src/hooks/useApi.js:35-39 | error status with that error, not loading |
| Lifecycle.ApiState.SetSuccess | src/hooks/useApi.js:41-45 | success status, not loading, no error |
| Lifecycle.ApiState.Enter | src/hooks/useApi.js:72 | the status becomes streaming or polling; a loading record stays coherent |
| Chat.ConcatAppend | src/hooks/useApi.js:76-82 | accumulating two runs of chunks concatenates their texts |
| Chat.ConcatFront | src/hooks/useApi.js:76-82 | the accumulated text begins with the first chunk |
| Chat.RequestMessages | src/hooks/useApi.js:65-69 | the optional system message, then the history in order, then the user message |
| Chat.ChatSession.constructor | src/hooks/useApi.js:53-58 | empty history and response, no controller, model `options.model \|\| 'gpt-4o-mini'` |
| Chat.ChatSession.Send | src/hooks/useApi.js:60-95 | a completed stream returns the in-order concatenation of the chunks and appends exactly user(content) then assistant(response) to the history; an abort is swallowed and leaves the history, the error and the streaming status; any other error is recorded and rethrown with the history unchanged; a non-streamed send makes no request and stays loading |
| Chat.ChatSession.Stop | src/hooks/useApi.js:97-102 | aborts exactly when a controller is held and drops it, so a second stop does nothing |
| Chat.ChatSession.Clear | src/hooks/useApi.js:104-108 | empty history and response, lifecycle reset |
| Image.BuildImageRequest | src/hooks/useApi.js:135-154 | the size is `params.size`, else the model's default size, else 2048x2048, and is always truthy; the image is sent exactly when truthy; the endpoint is the model's, else `/images/generations` |
| Image.CatalogueImageDefaults | src/hooks/useApi.js:141 | with the static catalogue, a request without its own size asks for 2048x2048 and goes to `/images/generations` |
| Image.Entry | src/hooks/useApi.js:158-161 | the url is `url \|\| b64_json \|\| item` and is truthy exactly when the item is; the revised prompt is `revised_prompt \|\| ''` |
| Image.Entries | src/hooks/useApi.js:158-161 | throws exactly when some item is `null`/`undefined`; otherwise one image per item, in order |
| Image.NormaliseImages | src/hooks/useApi.js:157-161 | a `null`/`undefined` response throws; otherwise one image per entry of `data \|\| response`, in order |
| Image.SingleEntryResponse | src/hooks/useApi.js:157-158 | a non-array `data` gives exactly one image, taken from it |
| Image.ImageGeneration.constructor | src/hooks/useApi.js:120-123 | no images, no current image, idle lifecycle |
| Image.ImageGeneration.Generate | src/hooks/useApi.js:129-171 | success stores the normalised images and the first as the current image (none for an empty list); a rejection or an unreadable response clears both, records the error and rethrows |
| Video.BuildVideoRequest | src/hooks/useApi.js:206-220 | model and prompt (`''` when missing) are always sent and no key beyond the six known ones; the endpoint is the model's, else `/videos` |
| Video.VideoRequestFrames | src/hooks/useApi.js:211-212 | the frame images are sent exactly when truthy, with their values |
| Video.VideoRequestRenamed | src/hooks/useApi.js:213-214 | `ratio` is sent as `size` and `dur` as `seconds`, each exactly when truthy |
| Video.CatalogueVideoDefaults | src/hooks/useApi.js:219-223 | with the static catalogue every model is asynchronous and every task goes to `/videos` |
| Video.WithUrl | src/hooks/useApi.js:228 | `{url, ...response}` is an object with a `url`, the response's own `url` winning, and every other key from the response |
| Video.Percentage | src/hooks/useApi.js:248 | at most 99, and within half a point of `i * 100 / 120` for every attempt |
| Video.PercentageMonotone | src/hooks/useApi.js:248 | the progress never decreases as the attempt grows |
| Video.FailureMessage | src/hooks/useApi.js:263 | a truthy `error.message` first, then a truthy `message`, else `视频生成失败`; always truthy |
| Video.Classify | src/hooks/useApi.js:250-264 | a rejected query throws its error, a `null`/`undefined` result throws, and a completed video is an object with a `url` |
| Video.ClassifyResult | src/hooks/useApi.js:253-264 | completed exactly when the status is completed/succeeded or `data` is truthy, with the video `{url, ...result}`; failed exactly when not completed and the status is failed/error, with a truthy message; the tests are the helpers `IsDone` and `IsFailed`, and the url chain is `PolledUrl` |
| Video.CompletionBeforeFailure | src/hooks/useApi.js:253-264 | a result with data counts as completed even when its status says failed |
| Video.PollFrom | src/hooks/useApi.js:246-270 | at least one and at most the remaining attempts' queries, and a resolved video has a `url` |
| Video.PollTimesOut | src/hooks/useApi.js:246-270 | all-pending results time out with `视频生成超时` after every remaining attempt |
| Video.PollSettlesAtFirstDecisive | src/hooks/useApi.js:246-264 | the first completed or failed result, at attempt k, settles polling with its verdict after exactly the queries up to k |
| Video.Submit | src/hooks/useApi.js:217-237 | a rejected or `null` task throws; the video is immediate exactly when the model is synchronous or the task carries `data.url` or `url`, and its url is the task's own `url` key if present, else `data?.url \|\| data?.[0]?.url`; otherwise the id is the first truthy of `id`, `task_id`, `taskId`, and its absence fails with `未获取到任务 ID` |
| Video.RunAfter | src/hooks/useApi.js:226-270 | an immediate or rejected submission makes no query and records no task id; a task is polled from attempt 0 with its id recorded |
| Video.RunVideo | src/hooks/useApi.js:203-270 | at most 120 queries, none exactly when no task is polled, and a resolved video is an object with a `url` |
| Video.VideoTimesOut | src/hooks/useApi.js:246-270 | a task whose results all stay pending times out after exactly 120 queries |
| Video.VideoSettlesAtFirstDecisive | src/hooks/useApi.js:246-264 | a task whose first decisive result is at attempt k settles with it after exactly k + 1 queries |
| Video.VideoGeneration.constructor | src/hooks/useApi.js:183-189 | no video, no task id, zero progress, idle lifecycle |
| Video.VideoGeneration.Generate | src/hooks/useApi.js:195-275 | the outcome, task id and query count are `RunVideo`'s; `attempt` is the number of queries; the percentage is 0 without polling, 100 after a completion, else the last attempt's progress; success stores the video, an error is recorded with the video cleared |
| Video.VideoGeneration.Complete | src/hooks/useApi.js:226-270 | once submitted, the run follows `RunAfter`, recording the task id only when polling |
| Video.VideoGeneration.PollTask | src/hooks/useApi.js:243-270 | the loop's outcome and query count are `PollFrom`'s from attempt 0, with the attempt and percentage left as the source leaves them |
| Models.RemoteDefaults | src/stores/models.js:55-65 | the defaults carry exactly label (`fullName \|\| name`), key (`modelKey \|\| id`), tips (`description \|\| remark`), the Seedream size list, qualities `['standard']` and defaultParams `{size: '1024x1024', quality: 'standard'}` |
| Models.MapRemoteModel | src/stores/models.js:54-68 | a `null`/`undefined` record throws; otherwise the keys are the six defaults plus the record's own, every record field wins, and every default the record lacks is kept |
| Models.MappedKey | src/stores/models.js:57 | the key a mapped record is deduplicated by is its own `key`, else `modelKey \|\| id` |
| Models.MapAll | src/stores/models.js:89 | throws exactly when some fetched record is `null`/`undefined`; otherwise one mapped model per record, in order |
| Models.Unseen | src/stores/models.js:91-92 | exactly the mapped models whose key is absent from the old list |
| Models.UnseenCounts | src/stores/models.js:91-92 | a mapped model with a new key keeps every occurrence, duplicates included; one with a known key is dropped |
| Models.UnseenAppend | src/stores/models.js:91-92 | filtering a concatenation filters each part in order, so the appended models keep their fetched order |
| Models.MergeBatch | src/stores/models.js:88-92 | a falsy `length` leaves the list unchanged; a truthy one on a non-array throws; an array throws exactly when mapping a record throws; otherwise the old list is kept as a prefix and the rest is exactly `Unseen` of the mapped batch; `Length` models the `?.length` guard and `HasKey` the `Set.has` test |
| Models.BatchKeepsDuplicates | src/stores/models.js:91-92 | two records of one batch with the same new key are both appended |
| Models.SizeOption | src/stores/models.js:137-143 | an object size passes through; a table key gives that table entry; anything else gives `{label: size, key: size}` |
| Models.SizeOptions | src/stores/models.js:137 | one option per size, in order |
| Models.SizeOptionsFor | src/stores/models.js:127-144 | the quality function picks the 4K or standard table (quality defaults to `standard`); without it and without truthy sizes, the standard table; sizes are mapped through the table the quality selects; it throws, always as a non-function call, exactly when a truthy `getSizesByQuality` is not the function or truthy `sizes` is not an array |
| Models.SizeOptionsFallbacks | src/stores/models.js:134 | an unknown model gets the standard table, and an empty `sizes` array gives no options |
| Models.SeedreamSizeOptions | src/stores/models.js:130-131 | Seedream gets the 4K table for `4k` and the standard table otherwise |
| Models.NanoBananaSizeOptions | src/stores/models.js:134-137 | Nano Banana gets no size options |
| Models.RatioOption | src/stores/models.js:160-163 | a ratio key gives the ratio list's entry; anything else gives `{label, key}` |
| Models.RatioOptionsFor | src/stores/models.js:157-164 | without truthy ratios, the ratio options; an array gives one option per ratio, in order; a throw happens exactly for truthy non-array ratios |
| Models.DurationOptionsFor | src/stores/models.js:169-173 | the model's truthy `durs`, else the fixed duration options; always truthy |
| Models.QualityOptionsFor | src/stores/models.js:149-152 | the model's truthy `qualities`, else `[]`; always truthy |
| Models.ModelRegistry.constructor | src/stores/models.js:42-48 | the three lists are the static catalogue's; not loading; no error |
| Models.ModelRegistry.LoadAllModels | src/stores/models.js:74-113 | images, videos and chats are merged in turn, a failed fetch counting as `[]`; the first merge that throws records its error and leaves its own and later lists unchanged; `loading` ends false; an earlier error is not cleared |
| Models.ModelRegistry.GetModelConfig | src/stores/models.js:119-122 | the first model with the key among the image models, then the video models, then the chat models |
| Models.FindByKeyFirst | src/stores/models.js:119-121 | the first model carrying the key is the one `find` returns |
| Models.ModelRegistry.GetModelSizeOptions | src/stores/models.js:127-144 | an unknown key gets the standard size table; otherwise the first image model with the key decides the options; a throw is a non-function call |
| Models.ModelRegistry.GetModelQualityOptions | src/stores/models.js:149-152 | `[]` for an unknown key; otherwise the first image model's `qualities \|\| []` |
| Models.ModelRegistry.GetModelRatioOptions | src/stores/models.js:157-164 | the fixed ratio options for an unknown key; otherwise the ratio options of the first video model with the key; a throw is a non-function call |
| Models.ModelRegistry.GetModelDurationOptions | src/stores/models.js:169-173 | the fixed duration options for an unknown key; otherwise the first video model's `durs \|\| VIDEO_DURATION_OPTIONS` |

## Left out

- Provider calls (`streamChatCompletions`, `generateImage`, `createVideoTask`, `getVideoTaskStatus`, `getModelsByType`) are not modelled as transport. Each is an input: a chunk list and its end, a reply, or a function from attempt index to reply.
- The five-second wait between status queries is not modelled; each query is one counted step. Wall-clock time is not modelled.
- `Date.now`, `Math.random` and `generateId` are not modelled. Ids and the clock are parameters. A separate lemma shows that a fresh id keeps project ids unique; the mutators themselves do not require freshness, because the source does not check it.
- JSON serialisation is not modelled. Storage holds the project list itself, an empty string, or text that does not parse. The `Date` revival in `loadProjects` and the dropping of `undefined` fields are not modelled either. A stored value that parses but is not an array ends in the same reset to `[]` as a parse failure.
- Timestamps are integer milliseconds. Viewport numbers and node positions are opaque reals.
- Projects.ProjectStore.GetSortedProjects: the comparator (`src/stores/projects.js:262-266`) never returns 0, not even for a project compared with itself, so it is not a consistent comparator in the sense of `Array.prototype.sort` in ECMA-262. For such a comparator the language leaves the whole order implementation-defined and guarantees only a permutation. Mainstream engines use comparison sorts that never compare an element with itself, and with them this comparator still gives an order by key. The model's stable insertion sort reproduces that order by key and keeps list order among equal keys. `SortedViewIsSorted` therefore describes these engines, not a guarantee of the language.
- Sorting.Lower: `toLowerCase` is modelled on ASCII letters only.
- Sorting.LexLess: characters are compared as Unicode code points, whereas JavaScript compares UTF-16 code units. The two orders differ only between a character above U+FFFF and one in U+E000-U+FFFF.
- Canvas.NodeTime: a truthy time that is not a number is read as 0. The source coerces it with `Number`, and a `NaN` from that makes its comparator inconsistent, so the engine's order is then unspecified.
- Js.Spread: spreading an array or a string gives no keys here, whereas the source copies its indices as keys. Fetched model records, provider responses and tasks are spread this way, so a reply that is an array where an object is expected is merged without its elements.
- Canvas.Patched: projects, nodes and patches are closed records. A key outside the modelled fields of a patch, a project or a node is not copied, and an edge's optional `type` and `data` are not modelled.
- Sorting.KeyOf: only the three documented sort fields are modelled. A field whose values mix dates and strings is not.
- Chat.ChatSession.Stop: aborting is not delivered to an in-flight `Send`. Concurrency between calls is not modelled; an abort shows up only as a stream that ends with `AbortError`.
- Vue reactivity (`ref`, `computed`, `watch`), `onUnmounted`, `console`, `window.$message`, the combined `useApi` hook and the debug export on `window` are runtime plumbing and are not modelled.
- The computed select-option lists of `src/stores/models.js:176-189` are plain maps over the lists and are not modelled.
- `Promise.all` concurrency in `loadAllModels` is not modelled. The three fetches are taken as settled, and the merges run in source order.
- Models.HasKey: `Set.has` compares with SameValueZero, and the model uses its own equality, `StrictEquals`, which treats two objects as never equal. The two differ only for `NaN` and for a key that is the very same object as an existing one. Numbers are integers here, and every fetched record is freshly parsed, so neither case can occur.
- Numbers are integers throughout, so `NaN`, infinities and fractions are not modelled. `Math.round` in the progress formula is computed exactly, with the one attempt (69) whose double-precision product rounds down written out.
- `src/config/workflows.js` and `src/hooks/useApiConfig.js` are not part of this model. Of `src/config/models.js`, only the constants and `getModelByName` that the core reads are modelled.
