# media-content-manager in Dafny

A model of the bookkeeping core of media-content-manager. It has two parts:

- **The media post-processor.** It admits transcoding orders, keeps them in a persisted store
  (`processing.<id>` and `completed.<id>` records) and runs at most `maxTasks` of them at
  once. It tracks each customer's progress and hands finished orders back, one pull at a
  time. For every order it plans the ffmpeg invocation: which outputs, which streams
  dropped, which codecs. The older scheduler and planner (`service/mediaPostProcessor.ts`)
  are modelled beside the newer ones.
- **The Telegram bot's small cores.**
  - VA-API encode profiles;
  - torrent de-duplication and the persisted download set;
  - torrent file selection;
  - the status panel with its progress bars and back-off interval;
  - the string helpers and keyboards;
  - the storage manager's path normalisation;
  - the prefixed key store, the chat data store and the chat state store;
  - the per-chat file list cache and the message worker;
  - the file list and file move dialogues.

The form follows the code:

- Objects whose fields change are classes whose methods state their whole new state.
- Loops are methods with invariants, proved against specification functions.
- Expressions are functions and lemmas.

Ordered dictionaries (JavaScript objects and FSDB records, whose insertion order the code
relies on) are sequences of entries with unique keys. Where the code and its description
disagree, the model follows the code:

- Both video planners always read the "movies" processing rule, even for "tv" orders. It is the `moviesRule` parameter of `VideoMediaProcessor.Process` and `LegacyVideoPlan.LegacyProcess`, and nothing in either plan reads the order's type.
- A job whose processor rejects stays in the running map and in `processing.<id>`.
- The type test `order.type in this._processors` also admits the names every object inherits (`toString`, `constructor`, ...). In the newer scheduler such a job never leaves the running map; in the older one its call resolves without work, and the job is launched again by each pass.
- `restoreDownloading` does not put restarted torrents into `processed`.
- The file list's page size is 15.

Abstract inputs are parameters or constant fields of the model:

- the SHA-256 job and torrent ids;
- the output naming function;
- `humanFormat` and `toFixed(2)`;
- the aspect-ratio key.

## Model

| member | source | states |
|---|---|---|
| MediaPostProcessor.SetInfo | media-post-processor/src/service/postprocessing/mediaPostProcessor.ts:147-151 | `_info[customer][id] = v` sets that entry, creating the customer's record, and keeps every other entry |
| MediaPostProcessor.MarkAllDoneMarksAll | media-post-processor/src/service/postprocessing/mediaPostProcessor.ts:82-87 | after `init`'s loop every stored completed record shows as completed, 100%, speed 0 for its customer |
| MediaPostProcessor.MarkAllDoneKeeps | media-post-processor/src/service/postprocessing/mediaPostProcessor.ts:84-87 | `init`'s loop leaves every info entry that no completed record names as it was |
| MediaPostProcessor.MarkAllDoneStaysDone | media-post-processor/src/service/postprocessing/mediaPostProcessor.ts:200-206 | a done entry stays done whatever further records are marked |
| MediaPostProcessor.Unclaimed | media-post-processor/src/service/postprocessing/mediaPostProcessor.ts:214-217 | the ids a pass may launch are stored ids not in the running map |
| MediaPostProcessor.Take | media-post-processor/src/service/postprocessing/mediaPostProcessor.ts:218-220 | the batch is a prefix of the candidates, of length `min(room, count)` and never negative |
| MediaPostProcessor.DrainIsClaimOfUnclaimed | media-post-processor/src/service/postprocessing/mediaPostProcessor.ts:211-222 | a drain pass launches exactly the first `room` unclaimed ids in store order and claims exactly those in the running map |
| MediaPostProcessor.DrainFromStart | media-post-processor/src/service/postprocessing/mediaPostProcessor.ts:211-222 | the same, for a pass from the start of the store |
| MediaPostProcessor.UnclaimedDistinct | media-post-processor/src/service/postprocessing/mediaPostProcessor.ts:214-221 | over a store with unique keys no id is a candidate twice |
| MediaPostProcessor.UnclaimedOnlyFrom | media-post-processor/src/service/postprocessing/mediaPostProcessor.ts:214-221 | an id stored nowhere in the rest of the store is not a candidate there |
| MediaPostProcessor.DrainLaunches | media-post-processor/src/service/postprocessing/mediaPostProcessor.ts:211-222 | a pass launches no id twice, none already running, only stored ones, and at most `room` of them (`maxTasks` less the running jobs, in `DrainPass`) |
| MediaPostProcessor.DrainClaims | media-post-processor/src/service/postprocessing/mediaPostProcessor.ts:214-237 | after a pass the running map is the old one plus the launched ids, each running its stored order, and running jobs keep theirs |
| MediaPostProcessor.ClaimFacts | media-post-processor/src/service/postprocessing/mediaPostProcessor.ts:237 | claiming stored ids that were not running adds exactly those ids with their stored orders |
| MediaPostProcessor.ClaimHas | media-post-processor/src/service/postprocessing/mediaPostProcessor.ts:237 | an id is in the map after claiming exactly when it was running or was claimed and is stored |
| MediaPostProcessor.ClaimValue | media-post-processor/src/service/postprocessing/mediaPostProcessor.ts:237 | a claimed id maps to its stored order; an unclaimed one keeps its old order |
| MediaPostProcessor.WithoutErrors | media-post-processor/src/service/postprocessing/mediaPostProcessor.ts:102-107 | exactly the non-error entries are kept, unchanged |
| MediaPostProcessor.MediaPostProcessor.constructor | media-post-processor/src/service/postprocessing/mediaPostProcessor.ts:46-56 | a processor starts over the stored records with nothing running, no progress info and no pull in flight |
| MediaPostProcessor.MediaPostProcessor.Process | media-post-processor/src/service/postprocessing/mediaPostProcessor.ts:65-77 | the id is the path's digest; a stored id gives `already_processing` and changes nothing, before the type is looked at; a type that is neither a processor nor a name every object inherits (`toString`, `constructor`, ...) gives `bad_mediatype` and changes nothing; otherwise the order is stored, a drain pass runs and the result is `success` |
| MediaPostProcessor.MediaPostProcessor.DrainPass | media-post-processor/src/service/postprocessing/mediaPostProcessor.ts:211-222 | the loop launches what `Drain` says and keeps the running map within `maxTasks`; nothing else changes |
| MediaPostProcessor.MediaPostProcessor.Settle | media-post-processor/src/service/postprocessing/mediaPostProcessor.ts:235-245 | the job leaves the running map exactly when `JobLeaves` holds for its type and the processor's outcome; otherwise the map is unchanged |
| MediaPostProcessor.JobLeaves | media-post-processor/src/service/postprocessing/mediaPostProcessor.ts:235-245 | a job leaves only if its type has a processor, and then exactly when the processor resolved |
| MediaPostProcessor.InheritedTypeSticks | media-post-processor/src/service/postprocessing/mediaPostProcessor.ts:235-245 | an order of an inherited type is admitted, and its job never leaves the running map, since calling `process` on it throws into the swallowing `catch` |
| MediaPostProcessor.MediaPostProcessor.OnDone | media-post-processor/src/service/postprocessing/mediaPostProcessor.ts:164-174 | the record moves from `processing.<id>` to `completed.<id>` and its customer sees it completed |
| MediaPostProcessor.MediaPostProcessor.OnError | media-post-processor/src/service/postprocessing/mediaPostProcessor.ts:146-158 | the record leaves `processing.<id>`, never reaches `completed`, and its customer sees the error (a handler nothing in the code reaches: the video processor emits only "done") |
| MediaPostProcessor.MediaPostProcessor.OnProgress | media-post-processor/src/service/postprocessing/mediaPostProcessor.ts:182-193 | the customer's entry for the job becomes "processing" with the given percent and speed |
| MediaPostProcessor.MediaPostProcessor.Init | media-post-processor/src/service/postprocessing/mediaPostProcessor.ts:82-89 | every stored completed record is marked done, then a drain pass runs |
| MediaPostProcessor.MediaPostProcessor.PullInfo | media-post-processor/src/service/postprocessing/mediaPostProcessor.ts:95-111 | the callback gets the customer's record, or an empty one; error entries are deleted only when the callback succeeds |
| MediaPostProcessor.MediaPostProcessor.PullCompletedBegin | media-post-processor/src/service/postprocessing/mediaPostProcessor.ts:119-129 | the customer's first completed record is handed out and the customer marked active; with none, or a pull in flight, the callback gets `null` and nothing changes |
| MediaPostProcessor.MediaPostProcessor.PullCompletedFinish | media-post-processor/src/service/postprocessing/mediaPostProcessor.ts:129-138 | on success the record and the customer's info entry for it are deleted, on failure both stay; the customer stops being active either way |
| LegacyMediaPostProcessor.LegacyDrainIsDrain | media-post-processor/src/service/mediaPostProcessor.ts:105-114 | an older pass is a newer pass with room for two launches, however many jobs already run |
| LegacyMediaPostProcessor.DrainFull | media-post-processor/src/service/mediaPostProcessor.ts:111-113 | a pass with no room left launches nothing more |
| LegacyMediaPostProcessor.LegacyDrainClaims | media-post-processor/src/service/mediaPostProcessor.ts:105-128 | an older pass launches at most two ids, none twice and none running; running jobs keep their orders and launched ids run their stored ones |
| LegacyMediaPostProcessor.RestorePasses | media-post-processor/src/service/mediaPostProcessor.ts:71-77 | `restoreProcessing` runs `2 - running` passes, none when two or more are running |
| LegacyMediaPostProcessor.ColdRestoreExceedsCeiling | media-post-processor/src/service/mediaPostProcessor.ts:71-114 | with four stored orders and none running, restoring runs all four at once |
| LegacyMediaPostProcessor.LegacyMediaPostProcessor.constructor | media-post-processor/src/service/mediaPostProcessor.ts:29-46 | an older processor starts over the stored records with nothing running |
| LegacyMediaPostProcessor.LegacyMediaPostProcessor.Process | media-post-processor/src/service/mediaPostProcessor.ts:35-66 | the same admission as the newer `process`, inherited names included, followed by one older pass |
| LegacyMediaPostProcessor.LegacyMediaPostProcessor.DrainPass | media-post-processor/src/service/mediaPostProcessor.ts:105-114 | the loop launches what `LegacyDrain` says |
| LegacyMediaPostProcessor.LegacyMediaPostProcessor.RestoreProcessing | media-post-processor/src/service/mediaPostProcessor.ts:71-77 | one older pass per free slot counted before the first |
| LegacyMediaPostProcessor.LegacyMediaPostProcessor.Settle | media-post-processor/src/service/mediaPostProcessor.ts:127-133 | the job leaves the running map exactly when `LegacyJobLeaves` holds for its type and the outcome; otherwise the map is unchanged |
| LegacyMediaPostProcessor.LegacyJobLeaves | media-post-processor/src/service/mediaPostProcessor.ts:127-133 | a job of a processor type leaves exactly when the processor resolved; one of an inherited type leaves exactly when calling that inherited function does not throw |
| LegacyMediaPostProcessor.InheritedTypeRelaunched | media-post-processor/src/service/mediaPostProcessor.ts:54-133 | example: a "toString" order is admitted and its call resolves without work, so it leaves the running map and the next pass launches it again |
| LegacyMediaPostProcessor.LegacyMediaPostProcessor.OnDone | media-post-processor/src/service/mediaPostProcessor.ts:233-239 | `completed.<id>` is written and `processing.<id>` deleted |
| LegacyMediaPostProcessor.LegacyMediaPostProcessor.PullCompleted | media-post-processor/src/service/mediaPostProcessor.ts:85-100 | the first completed record of any customer is handed out, and deleted only when the callback succeeds; with none, nothing is handed out |
| VideoMediaProcessor.FindVideoStream | media-post-processor/src/service/postprocessing/processors/videoMediaProcessor.ts:192-199 | the first video stream, or an error when there is none |
| VideoMediaProcessor.TagAllowedIff | media-post-processor/src/service/postprocessing/processors/videoMediaProcessor.ts:211-215 | a tag list is allowed exactly when some value contains some allowed substring |
| VideoMediaProcessor.ExcludedStreamsIff | media-post-processor/src/service/postprocessing/processors/videoMediaProcessor.ts:207-220 | a stream is dropped exactly when it has tags and is audio (subtitle) with no allowed audio (subtitle) tag; streams without tags and other kinds are kept |
| VideoMediaProcessor.ExclusionMaps | media-post-processor/src/service/postprocessing/processors/videoMediaProcessor.ts:82-85 | two options per excluded stream |
| VideoMediaProcessor.ExclusionMapsPairs | media-post-processor/src/service/postprocessing/processors/videoMediaProcessor.ts:82-85 | the i-th pair is `-map`, `-0:<index of the i-th excluded stream>`, in filter order |
| VideoMediaProcessor.SampleFor | media-post-processor/src/service/postprocessing/processors/videoMediaProcessor.ts:61-62 | the sample is a candidate with the source's aspect key; there is none exactly when no candidate has it |
| VideoMediaProcessor.VideoOptions | media-post-processor/src/service/postprocessing/processors/videoMediaProcessor.ts:137-150 | the video codec is `copy` exactly when the sample is the source size or `copy` is configured; a same-size sample gets `-s WxH`; otherwise the configured codec gets `scale_vaapi` to the sample exactly when it contains "vaapi", and no options otherwise |
| VideoMediaProcessor.HwaccelOptions | media-post-processor/src/service/postprocessing/processors/videoMediaProcessor.ts:157-163 | the VA-API input options exactly when some configured output, used or not, has a "vaapi" codec; none otherwise |
| VideoMediaProcessor.OutputFor | media-post-processor/src/service/postprocessing/processors/videoMediaProcessor.ts:69-87 | an output has its path, copies audio and carries the fixed options, the extra options, the exclusion maps and the codec options |
| VideoMediaProcessor.PlannedSnoc | media-post-processor/src/service/postprocessing/processors/videoMediaProcessor.ts:54-90 | one more configuration adds its output exactly when it is used |
| VideoMediaProcessor.PlannedIsUsedInOrder | media-post-processor/src/service/postprocessing/processors/videoMediaProcessor.ts:54-90 | the outputs are those of the used configurations (name wanted, matching sample no wider than the source), one each, in configuration order |
| VideoMediaProcessor.OutputPaths | media-post-processor/src/service/postprocessing/processors/videoMediaProcessor.ts:89 | one path per output, in order |
| VideoMediaProcessor.PlannedPathsInDirectory | media-post-processor/src/service/postprocessing/processors/videoMediaProcessor.ts:39-89 | every result path lies in the job directory, named by the naming function with ".mkv" |
| VideoMediaProcessor.BuildOutputs | media-post-processor/src/service/postprocessing/processors/videoMediaProcessor.ts:54-90 | the loop yields the planned outputs and their paths |
| VideoMediaProcessor.Process | media-post-processor/src/service/postprocessing/processors/videoMediaProcessor.ts:17-130 | a failed probe, no video stream or no used output is a rejection; otherwise ffmpeg starts on the built command, and `done` carries the order with its directory, paths and id |
| VideoMediaProcessor.ProgressLinesNotLogged | media-post-processor/src/service/postprocessing/processors/videoMediaProcessor.ts:169-174 | stderr lines starting with "frame=" are not logged |
| LegacyVideoPlan.LegacyExcludedStreams | media-post-processor/src/service/mediaPostProcessor.ts:261-270 | the older filter fails exactly when an audio or subtitle stream has no tags; otherwise it drops the same streams as the newer one |
| LegacyVideoPlan.TaglessAudioRejected | media-post-processor/src/service/mediaPostProcessor.ts:261-270 | a tagless audio stream makes the older filter fail, while the newer one keeps the stream |
| LegacyVideoPlan.LegacyOutputFor | media-post-processor/src/service/mediaPostProcessor.ts:174-196 | an older output has its path, copies audio, starts with `-s`, the preset and `-map 0`, then the extra options and the exclusion maps, and copies video exactly when the scaled sample is the source size or `copy` is configured |
| LegacyVideoPlan.LegacyPlannedSnoc | media-post-processor/src/service/mediaPostProcessor.ts:168-198 | one more configuration adds its output exactly when it is used |
| LegacyVideoPlan.LegacyPlannedIsUsedInOrder | media-post-processor/src/service/mediaPostProcessor.ts:168-198 | the outputs are those of the configurations whose name is wanted and whose height fits, one each, in order |
| LegacyVideoPlan.LegacyBuildOutputs | media-post-processor/src/service/mediaPostProcessor.ts:168-198 | the older loop yields the planned outputs and their paths |
| LegacyVideoPlan.LegacyProcess | media-post-processor/src/service/mediaPostProcessor.ts:140-224 | a failed probe, no video stream or a tagless audio or subtitle stream is a rejection; otherwise ffmpeg starts on the selected outputs, and with none selected its run fails and the order is rejected |
| VaapiInfo.EncodeProfiles | media-post-processor/src/service/vaInfo.ts:21-27 | no entrypoints give no profiles |
| VaapiInfo.EncodeProfilesIff | media-post-processor/src/service/vaInfo.ts:21-27 | a profile is an encode profile exactly when an entrypoint containing "Enc" lists it |
| VaapiInfo.EncodeProfilesAppend | media-post-processor/src/service/vaInfo.ts:22-26 | the encode profiles of concatenated entrypoint lists are the concatenation of theirs |
| VaapiInfo.ProfilesOf | media-post-processor/src/service/vaInfo.ts:44-48 | an entrypoint lists no more profiles than there are pairs |
| VaapiInfo.GroupFind | media-post-processor/src/service/vaInfo.ts:44-48 | each entrypoint that occurs is grouped with exactly its profiles in order of appearance; others have no group |
| VaapiInfo.GroupKeys | media-post-processor/src/service/vaInfo.ts:46-47 | groups appear once each, in order of first appearance |
| VaapiInfo.Get | media-post-processor/src/service/vaInfo.ts:33-51 | success exactly when `vainfo` ran and its output has the header; the info then carries the header, and its profiles hold each entrypoint once, exactly the entrypoints that occur, each with exactly its profiles in order |
| TorrentFiles.Progress | media-telegram-manager-bot/src/service/torrent/torrentData.ts:47-49 | the torrent's fraction as a percentage: within [0, 100] for a fraction within [0, 1], and 0 exactly when the fraction is 0 |
| TorrentFiles.FileData | media-telegram-manager-bot/src/service/torrent/torrentData.ts:89 | a kept file's path is the torrent's path joined with the file's path, and its name, amounts and size are the file's |
| TorrentFiles.GetFiles | media-telegram-manager-bot/src/service/torrent/torrentData.ts:82-92 | the loop yields the data of the files whose extension the category lists, as `Selected` gives them |
| TorrentFiles.SelectedIsFilter | media-telegram-manager-bot/src/service/torrent/torrentData.ts:84-91 | the kept files are exactly the wanted ones, in order, never more than the torrent has |
| TorrentFiles.SelectedEmpty | media-telegram-manager-bot/src/service/torrent/torrentData.ts:84-91 | nothing is kept exactly when no file passes the filter |
| TorrentService.MarkedDownloadingFind | media-telegram-manager-bot/src/service/torrent/torrentService.ts:138-145 | an existing entry is never overwritten and other digests are untouched |
| TorrentService.MarkedDownloadedFind | media-telegram-manager-bot/src/service/torrent/torrentService.ts:124-130 | only the given digest's entry is deleted |
| TorrentService.Destination | media-telegram-manager-bot/src/service/torrent/torrentService.ts:101-104 | `MANAGED_DIR/category/name`, with the sub-directory appended only when one is set |
| TorrentService.DestinationParse | media-telegram-manager-bot/src/service/torrent/torrentService.ts:101-104 | a one-segment sub-directory is the last segment, under `category/name` |
| TorrentService.RestartedIff | media-telegram-manager-bot/src/service/torrent/torrentService.ts:36-39 | a restart attempts exactly the stored digests not downloading here |
| TorrentService.TorrentService.constructor | media-telegram-manager-bot/src/service/torrent/torrentService.ts:29 | a service starts over the stored downloads with nothing in `processed` |
| TorrentService.TorrentService.MarkDownloading | media-telegram-manager-bot/src/service/torrent/torrentService.ts:138-145 | the stored record becomes `MarkedDownloading` of the old one |
| TorrentService.TorrentService.MarkDownloaded | media-telegram-manager-bot/src/service/torrent/torrentService.ts:124-130 | the stored record becomes `MarkedDownloaded` of the old one |
| TorrentService.TorrentService.AddToDownload | media-telegram-manager-bot/src/service/torrent/torrentService.ts:70-117 | the download is stored at once; the add succeeds with no peers or with a file of the category, and fails otherwise with the entry left stored |
| TorrentService.TorrentService.StartDownload | media-telegram-manager-bot/src/service/torrent/torrentService.ts:52-62 | a digest already downloading returns that download and changes nothing; otherwise a successful add maps the digest to the new download |
| TorrentService.TorrentService.OnDone | media-telegram-manager-bot/src/service/torrent/torrentService.ts:59-112 | the stored entry is deleted and the digest stops downloading |
| TorrentService.TorrentService.RestoreDownloading | media-telegram-manager-bot/src/service/torrent/torrentService.ts:34-46 | the stored downloads not downloading here are added again, in store order; the store and `processed` stay as they were |
| PanelManager.SizeChangeIsQuiet | media-telegram-manager-bot/src/service/panelManager.ts:73-75 | a change of size or downloaded amount alone asks for no update; a new download does |
| PanelManager.NextInterval | media-telegram-manager-bot/src/service/panelManager.ts:104-118 | the interval stays within [5000, 25000000], grows after a failure and shrinks after a success |
| PanelManager.RepeatedInterval | media-telegram-manager-bot/src/service/panelManager.ts:104-118 | `n` failures add `n` steps up to the maximum; `n` successes remove `n` steps down to 5000 |
| PanelManager.SummedSectionsOnly | media-telegram-manager-bot/src/service/panelManager.ts:153-163 | the totals are those of the non-subsection downloads alone, and count them |
| PanelManager.LinesOnePerEntry | media-telegram-manager-bot/src/service/panelManager.ts:147-157 | one line per download, in order |
| PanelManager.Panel.constructor | media-telegram-manager-bot/src/service/panelManager.ts:58-61 | a panel starts empty with the base interval |
| PanelManager.Panel.Add | media-telegram-manager-bot/src/service/panelManager.ts:67-76 | the data is stored, an existing bar kept and a missing one created at 0 of 100; an update is asked for exactly when `Triggers` holds |
| PanelManager.Panel.Remove | media-telegram-manager-bot/src/service/panelManager.ts:82-90 | data and bar are dropped; an update is asked for exactly when the download was there |
| PanelManager.Panel.Message | media-telegram-manager-bot/src/service/panelManager.ts:134-169 | the text is `PanelMessage` of the downloads: the fixed text when there are none, else the summary and one line per download; every download's bar then shows its clamped percent |
| PanelManager.Panel.RenderAll | media-telegram-manager-bot/src/service/panelManager.ts:147-164 | the loop yields the summed totals and the download lines, and leaves every download's bar at its clamped percent (the bars are distinct objects, one per id) |
| PanelManager.Panel.RenderEntry | media-telegram-manager-bot/src/service/panelManager.ts:148-157 | the bar is set to the percent and the line built around its rendering |
| PanelManager.Panel.Update | media-telegram-manager-bot/src/service/panelManager.ts:95-127 | the panel's text is sent; the interval moves by `NextInterval`; the worker's message and the chat store end as `WorkerAfter` says: a delivered new text is kept and stored under the chat's "lastMessage" key, and for a delivered empty panel a persisting worker then forgets it and deletes that key |
| PanelManager.Panel.Deliver | media-telegram-manager-bot/src/service/panelManager.ts:98-126 | for a given text: the send, the new interval, and the worker's message and chat store as `WorkerAfter` says (stored after a delivered new text, forgotten and deleted for a delivered empty panel) |
| PanelManager.PanelManager.GetPanel | media-telegram-manager-bot/src/service/panelManager.ts:27-34 | a chat's panel is created once, keyed by the id's string form, with a persisting worker whose message is the one stored for the chat, and returned from then on |
| ProgressBar.Trunc | media-telegram-manager-bot/src/service/progressBar.ts:57 | truncation toward zero |
| ProgressBar.Clamp | media-telegram-manager-bot/src/service/progressBar.ts:42 | the value clamped into [0, total] |
| ProgressBar.AbsoluteRange | media-telegram-manager-bot/src/service/progressBar.ts:57 | a value in [0, total] fills between none and all of the steps |
| ProgressBar.PartialIndex | media-telegram-manager-bot/src/service/progressBar.ts:62-63 | the partial symbol index lies in 1..6 |
| ProgressBar.Cell | media-telegram-manager-bot/src/service/progressBar.ts:60-69 | a cell is a space or a block symbol |
| ProgressBar.RenderedShape | media-telegram-manager-bot/src/service/progressBar.ts:59-70 | full blocks, at most one partial block right after them, then spaces |
| ProgressBar.RenderedEnds | media-telegram-manager-bot/src/service/progressBar.ts:57-69 | a bar at 0 renders only spaces and a full bar only full blocks |
| ProgressBar.ProgressBar.constructor | media-telegram-manager-bot/src/service/progressBar.ts:17-19 | a new bar starts at 0 |
| ProgressBar.ProgressBar.Set | media-telegram-manager-bot/src/service/progressBar.ts:41-43 | the value is clamped into [0, total] |
| ProgressBar.ProgressBar.Add | media-telegram-manager-bot/src/service/progressBar.ts:25-27 | the value moves up by the size of the delta, clamped, and never decreases |
| ProgressBar.ProgressBar.Subtract | media-telegram-manager-bot/src/service/progressBar.ts:33-35 | the value moves down by the size of the delta, clamped, and never increases |
| ProgressBar.ProgressBar.Current | media-telegram-manager-bot/src/service/progressBar.ts:48-50 | the value, within [0, total] |
| ProgressBar.ProgressBar.Render | media-telegram-manager-bot/src/service/progressBar.ts:56-72 | exactly `length - 1` cells (none for a length below 2), as `Rendered` gives them for the filled amount |
| ServiceIndex.ListContent | media-telegram-manager-bot/src/service/index.ts:8-21 | the loop yields the header and a line break, then the mapped lines in order, joined by line breaks |
| ServiceIndex.ListingEmpty | media-telegram-manager-bot/src/service/index.ts:9-20 | with no data the listing is the header and a line break |
| ServiceIndex.ListingStartsWithHeader | media-telegram-manager-bot/src/service/index.ts:9-20 | a listing starts with its header line, followed by an empty line when there are entries |
| ServiceIndex.EntriesOnePerElement | media-telegram-manager-bot/src/service/index.ts:11-18 | a one-line mapper yields the elements' lines in order, one each |
| ServiceIndex.Cancelable | media-telegram-manager-bot/src/service/index.ts:28-30 | the input followed by exactly "\n\n[/cancel]" |
| ServiceIndex.Fitted | media-telegram-manager-bot/src/service/index.ts:38-46 | input of the target length is unchanged; shorter input is padded with spaces to it; longer input becomes a prefix of it followed by "...", of the target length when that is at least 3 and just "..." otherwise |
| ServiceIndex.ToLength | media-telegram-manager-bot/src/service/index.ts:38-46 | the reassignments yield `Fitted` |
| Keyboard.Callback | media-telegram-manager-bot/src/service/keyboard.ts:14-39 | the handler prefix, a colon, then exactly the payload |
| Keyboard.ConfirmationKeyboard | media-telegram-manager-bot/src/service/keyboard.ts:9-19 | one row of one confirm button whose callback is `prefix:payload` |
| Keyboard.Targets | media-telegram-manager-bot/src/service/keyboard.ts:30-41 | two targets when there is a previous page, two when there is a next one |
| Keyboard.PaginationKeyboard | media-telegram-manager-bot/src/service/keyboard.ts:28-42 | one row of at most four buttons, each leading to its target |
| Keyboard.PaginationLabels | media-telegram-manager-bot/src/service/keyboard.ts:30-41 | "<<" and "<" come first when there is a previous page, ">" and ">>" last when there is a next one, and the row is empty exactly when there is neither |
| Keyboard.TargetsInRange | media-telegram-manager-bot/src/service/keyboard.ts:28-42 | for a page within [0, total] every target is within [0, total] |
| Keyboard.CallbackPage | media-telegram-manager-bot/src/service/keyboard.ts:32-39 | a button's target page reads back from its callback data |
| StorageManager.Normalized | media-telegram-manager-bot/src/service/storageManager.ts:61-66 | never starts with "..", is a suffix of the input, returns input not starting with ".." unchanged and keeps non-empty input non-empty |
| StorageManager.Normalize | media-telegram-manager-bot/src/service/storageManager.ts:61-66 | the loop yields `Normalized` |
| StorageManager.NormalizedIdempotent | media-telegram-manager-bot/src/service/storageManager.ts:62-64 | normalizing twice is normalizing once |
| StorageManager.NormalizedParent | media-telegram-manager-bot/src/service/storageManager.ts:62-64 | "../x" becomes "./x" |
| StorageManager.UnderManagedDir | media-telegram-manager-bot/src/service/storageManager.ts:20-41 | every path `move`, `rename` and `delete` hand to the filesystem resolves to the managed directory or a path inside it, when the normalized paths and the new file name have no ".." segment |
| StorageManager.RenameEscapes | media-telegram-manager-bot/src/service/storageManager.ts:29-33 | example: renaming "f" in "/m" to "../x" targets "/x", outside the managed directory, because `_normalize` strips only leading dots and `join` resolves ".." |
| Paths.JoinNormalizedSegments | media-telegram-manager-bot/src/service/storageManager.ts:21 | `join` onto a directory of a path without ".." segments resolves to the directory's segments followed by the path's |
| Paths.NormalizeSegments | media-telegram-manager-bot/src/service/storageManager.ts:21 | normalizing keeps the segments a path resolves to, and whether it is absolute |
| Paths.BaseOfJoinNormalized | media-telegram-manager-bot/src/service/storageManager.ts:32 | a single name joined onto a directory is the base name of the result |
| StorageManager.RenameKeepsDirAndExt | media-telegram-manager-bot/src/service/storageManager.ts:29-33 | a rename to a one-segment name without a dot resolves to the source's directory followed by the new name with the source's extension, which is its base name and extension |
| StorageManager.ExtHasOneDot | media-telegram-manager-bot/src/service/storageManager.ts:31 | an extension holds no dot after its first character |
| PersistentStore.StripTrailingDots | media-telegram-manager-bot/src/service/persistentStore.ts:46 | a prefix of the input, not ending with a dot, with only dots removed |
| PersistentStore.KeyOfEmpty | media-telegram-manager-bot/src/service/persistentStore.ts:45-47 | `key("")` is the prefix without its trailing dots |
| PersistentStore.TrailingDotsIgnored | media-telegram-manager-bot/src/service/persistentStore.ts:46 | prefixes "a" and "a.." give the same keys |
| PersistentStore.KeyInjective | media-telegram-manager-bot/src/service/persistentStore.ts:45-47 | distinct keys under one prefix are distinct delegate keys |
| PersistentStore.SetThenGet | media-telegram-manager-bot/src/service/persistentStore.ts:50-62 | through the adapter a set value reads back, and a delete forgets its own key only |
| PersistentStore.Adapter.constructor | media-telegram-manager-bot/src/service/persistentStore.ts:36-38 | an adapter keeps its delegate and prefix |
| PersistentStore.Adapter.Get | media-telegram-manager-bot/src/service/persistentStore.ts:50-52 | the delegate's value at the formatted key |
| PersistentStore.Adapter.Set | media-telegram-manager-bot/src/service/persistentStore.ts:55-57 | the delegate is set at the formatted key |
| PersistentStore.Adapter.Delete | media-telegram-manager-bot/src/service/persistentStore.ts:60-62 | the delegate's formatted key is deleted |
| Files.ShownIff | media-telegram-manager-bot/src/service/files.ts:83-85 | a file is shown exactly when "files" is a mode, a directory exactly when "directories" is |
| Files.DefaultShowsAll | media-telegram-manager-bot/src/service/files.ts:17-85 | with the default modes every entry is shown, in order |
| Files.Files.constructor | media-telegram-manager-bot/src/service/files.ts:40-42 | a new instance starts with every cache empty over the stored values |
| Files.Files.Page | media-telegram-manager-bot/src/service/files.ts:47-52 | an empty or 0 cache is refilled from the store, 0 when nothing is stored |
| Files.Files.SetPage | media-telegram-manager-bot/src/service/files.ts:57-59 | the store is written and the caches are left alone |
| Files.Files.Modes | media-telegram-manager-bot/src/service/files.ts:64-69 | the stored modes, or the defaults, read once |
| Files.Files.SetModes | media-telegram-manager-bot/src/service/files.ts:74-76 | the store is written and the caches are left alone |
| Files.Files.Files | media-telegram-manager-bot/src/service/files.ts:81-88 | the stored list (empty when none) filtered by the modes, computed on the first call only |
| Files.Files.SetFiles | media-telegram-manager-bot/src/service/files.ts:93-95 | the store is written and the caches are left alone |
| Files.StalePage | media-telegram-manager-bot/src/service/files.ts:47-59 | example: a page read before a set keeps being returned |
| Files.ZeroPageReread | media-telegram-manager-bot/src/service/files.ts:47-52 | example: a page read as 0 is read again from the store |
| Files.FilesComputedOnce | media-telegram-manager-bot/src/service/files.ts:81-88 | example: later changes to the modes do not show in the file list |
| ChatStateManager.StateThenGetState | media-telegram-manager-bot/src/service/telegram/chatStateManager.ts:8-61 | a chat never set is in `NO_STATE`; after a state is stored (by `state`, or `NO_STATE` by `flush`) the chat is in it; other chats keep theirs |
| ChatStateManager.StateKeysDiffer | media-telegram-manager-bot/src/service/telegram/chatStateManager.ts:29-31 | chats whose ids differ as strings have distinct state keys |
| ChatStateManager.Dispatch | media-telegram-manager-bot/src/service/telegram/chatStateManager.ts:46-52 | no event exactly in "no-state"; otherwise one event "state:" + state with the stored data and the trimmed text, or "" |
| ChatStateManager.EmittedArgsMissListener | media-telegram-manager-bot/src/service/telegram/chatStateManager.ts:51 | as emitted, a listener taking `(data, {chatId, message})` finds neither data nor text |
| ChatStateManager.ListenerArgsReachListener | media-telegram-manager-bot/src/service/telegram/chatStateManager.ts:51 | emitted as the listeners take them, the data and the trimmed text arrive |
| ChatStateManager.ChatStateManager.State | media-telegram-manager-bot/src/service/telegram/chatStateManager.ts:29-31 | the chat's state entry becomes the new state and data |
| ChatStateManager.ChatStateManager.Flush | media-telegram-manager-bot/src/service/telegram/chatStateManager.ts:38-40 | the chat's state entry becomes `NO_STATE` |
| ChatStateManager.ChatStateManager.GetState | media-telegram-manager-bot/src/service/telegram/chatStateManager.ts:59-61 | the stored state, or `NO_STATE` |
| ChatStateManager.ChatStateManager.Process | media-telegram-manager-bot/src/service/telegram/chatStateManager.ts:46-52 | the event `Dispatch` gives for the chat's state; the state is not changed |
| Database.ChatKey | media-telegram-manager-bot/src/service/database.ts:13-34 | the chat id's string form, a colon, then the category |
| Database.NumericChatKeyInjective | media-telegram-manager-bot/src/service/database.ts:14-33 | for numeric chat ids the key determines both chat and category |
| Database.GetOrDefault | media-telegram-manager-bot/src/service/database.ts:50-52 | the stored value when there is one, the default otherwise |
| Database.EntriesOfIff | media-telegram-manager-bot/src/service/database.ts:67-69 | exactly the entries whose key ends with the category |
| Database.ChatDataInCategory | media-telegram-manager-bot/src/service/database.ts:13-69 | every chat's data of a category is among that category's entries |
| Database.UpdateThenGet | media-telegram-manager-bot/src/service/database.ts:41-60 | written data reads back, deleted data reads as the default, other keys are unchanged |
| Database.Store.UpdateData | media-telegram-manager-bot/src/service/database.ts:41-43 | the entry is set |
| Database.Store.GetData | media-telegram-manager-bot/src/service/database.ts:50-52 | the stored value or the default |
| Database.Store.DeleteData | media-telegram-manager-bot/src/service/database.ts:58-60 | the entry is deleted |
| Database.Store.GetAll | media-telegram-manager-bot/src/service/database.ts:67-69 | the entries of the category, in store order |
| Database.Store.UpdateChatData | media-telegram-manager-bot/src/service/database.ts:13-15 | the chat key's entry is set |
| Database.Store.GetChatData | media-telegram-manager-bot/src/service/database.ts:23-25 | the chat key's value or the default |
| Database.Store.DeleteChatData | media-telegram-manager-bot/src/service/database.ts:32-34 | the chat key's entry is deleted |
| MessageWorker.SendOutcome | media-telegram-manager-bot/src/service/messageWorker.ts:45-63 | the same text makes no call and returns the remembered id; new text edits the remembered message; without one a message is sent; a failed call returns the error and remembers nothing new |
| MessageWorker.DeliveredIsRemembered | media-telegram-manager-bot/src/service/messageWorker.ts:52-62 | after a delivered send the message is remembered with the sent text under the returned id |
| MessageWorker.SendTwice | media-telegram-manager-bot/src/service/messageWorker.ts:48-51 | sending the same text again makes no call and returns the same id |
| MessageWorker.MessageWorker.constructor | media-telegram-manager-bot/src/service/messageWorker.ts:34-39 | the remembered message is loaded only with `useLastMessage` |
| MessageWorker.MessageWorker.Send | media-telegram-manager-bot/src/service/messageWorker.ts:45-63 | the outcome of `SendOutcome`, persisted after a bot call only with `useLastMessage` |
| MessageWorker.MessageWorker.ForgetLastMessage | media-telegram-manager-bot/src/service/messageWorker.ts:68-73 | only a remembered message of a persisting worker is forgotten, in memory and in the store |
| FilesList.ShownWindow | media-telegram-manager-bot/src/listeners/filesList.ts:83-84 | page `p` shows the up to 15 files from `p * 15` on, none past the end |
| FilesList.EntriesTwoPerFile | media-telegram-manager-bot/src/listeners/filesList.ts:88-97 | two lines per file shown, in order |
| FilesList.WindowLines | media-telegram-manager-bot/src/listeners/filesList.ts:88-97 | the `k`-th file of a window gets its path-and-size line and its commands at index `first + k` |
| FilesList.CommandsAbsolute | media-telegram-manager-bot/src/listeners/filesList.ts:83-97 | the `k`-th file shown on page `p` is the file at `p * 15 + k`, and its commands carry that index |
| FilesList.MoveOnlyForFiles | media-telegram-manager-bot/src/listeners/filesList.ts:91-95 | the move command is offered exactly for files |
| FilesList.HeaderCounts | media-telegram-manager-bot/src/listeners/filesList.ts:87 | the header reports the number shown and the number in all |
| FilesList.LastPageContents | media-telegram-manager-bot/src/listeners/filesList.ts:37-70 | the last page offered is empty exactly when the count is a multiple of 15, else it holds the files left after the full pages |
| FilesList.EveryFileOnAPage | media-telegram-manager-bot/src/listeners/filesList.ts:37-84 | every file is on a page the pagination reaches |
| FilesList.ReplaceFirst | media-telegram-manager-bot/src/listeners/filesList.ts:109 | only the first occurrence is replaced, or nothing when there is none |
| FilesList.EscapedAll | media-telegram-manager-bot/src/listeners/filesList.ts:109 | each extension escaped, in order |
| FilesList.DefaultPattern | media-telegram-manager-bot/src/listeners/filesList.ts:104-110 | the loop yields `Pattern` of the categories |
| FilesList.PatternAlternatives | media-telegram-manager-bot/src/listeners/filesList.ts:104-110 | the pattern is "(", one alternative per extension in order with its first dot escaped, then ")$" |
| FilesMove.MovePaths | media-telegram-manager-bot/src/listeners/filesMove.ts:92-95 | the source is the file's path; the target lies in the location and keeps the file's base name |
| FilesMove.OnFileMove | media-telegram-manager-bot/src/listeners/filesMove.ts:80-109 | the outcome of `Handle`, and the chat's state flushed exactly when the outcome says so |
| FilesMove.OnEvent | media-telegram-manager-bot/src/listeners/filesMove.ts:80 | the listener's outcome for an event, given the data and the text; the chat's state is stored as empty exactly when the data is there and the handling ends the dialogue, and the store is otherwise untouched |
| FilesMove.MissingIndex | media-telegram-manager-bot/src/listeners/filesMove.ts:87-88 | "/moveFileTo" without an index reports it, moves nothing and ends the dialogue |
| FilesMove.FlushUnlessUnknown | media-telegram-manager-bot/src/listeners/filesMove.ts:81-107 | every outcome but an unknown command ends the dialogue; only "/moveFileTo" moves |
| FilesMove.MovedIntoLocation | media-telegram-manager-bot/src/listeners/filesMove.ts:90-95 | a file is moved only into a listed location |
| Text.ParseIntHex | media-telegram-manager-bot/src/listeners/filesMove.ts:90 | `parseInt` without a radix reads "0x" followed by hexadecimal digits as that number in base 16 |
| FilesMove.HexLocation | media-telegram-manager-bot/src/listeners/filesMove.ts:90 | example: the index "0x10" names the location at index 16 |
| FilesMove.ListedLine | media-telegram-manager-bot/src/listeners/filesMove.ts:117-124 | the `k`-th location of page `p` is listed with "/moveFileTo_" and its index `p * 15 + k` |
| FilesMove.CommandParts | media-telegram-manager-bot/src/listeners/filesMove.ts:84-90 | the command for index `n` splits into the command and the index, which parses back as `n` |
| FilesMove.CommandMoves | media-telegram-manager-bot/src/listeners/filesMove.ts:86-107 | the command for location `n` moves the file there and ends the dialogue |
| FilesMove.ListedCommandMoves | media-telegram-manager-bot/src/listeners/filesMove.ts:86-124 | sending back a listed command moves the file into that location |
| FilesMove.EmittedCommandIgnored | media-telegram-manager-bot/src/listeners/filesMove.ts:80-82 | as events are emitted, the listener asks for a location again and never moves or flushes |
| FilesMove.ListedCommandReachesListener | media-telegram-manager-bot/src/listeners/filesMove.ts:80-99 | emitted as the listener takes them, a listed command reaches it and moves the file |

## Left out

- I/O and foreign calls:
  - ffprobe and ffmpeg runs, `rm` and `mkdir`;
  - the Telegram bot's send and edit calls, `vainfo`, the torrent client and the file copy.
  - Each is a parameter (its outcome) or is not modelled.
- Asynchronous timing:
  - Throttling and debouncing in `Panel` and the progress log.
  - Re-entry between `await`s, modelled by treating each operation as atomic.
  - The recursive re-drain after `Promise.all`: callers run `DrainPass` again.
- Floating point:
  - `SpeedIndicator`, `_.round`, `toFixed(2)`, `humanFormat` and the `width / height` aspect key are abstract functions or given values.
  - JavaScript numbers in the panel and progress bar are reals, and `NaN` is not modelled beyond the panel's `sections == 0` case.
- FSDB is modelled as an ordered map; values stored as `null` are modelled only where the code stores them (chat state, last message).
- PersistentStore.SetThenGet: the delegate is a flat map from whole keys to values. A store that nests records on the dots of a key (as the prefixed keys of service/persistentStore.ts:45-47 suggest) would make the prefix's own key the parent of every "prefix.x", so a set or delete there would reach the other keys; that nesting is not modelled.
- String lengths count characters, not UTF-16 code units.
- `Paths.Join` concatenates with "/" and does not normalise like `path.join` (an empty directory, "." and ".." segments are kept as they are). The storage manager uses `Paths.JoinNormalized`, which does; the torrent destinations, the video outputs and the file moves use `Paths.Join`.
- Paths.Base, Paths.Dir: do not drop a trailing separator as `basename` and `parse` do ("a/b/" has the base name "b" in node and "" here); the paths they are given come from directory listings and joins and do not end with one.
- StorageManager.UnderManagedDir: containment is proved only for paths and new names without a ".." segment. `_normalize` strips only leading dots and `join` resolves "..", so a user-typed new name such as "../../etc/x" leaves the managed directory (`StorageManager.RenameEscapes`).
- The regular expressions of `VaInfo.get`, and the matching of the default file pattern against paths: only the pattern's text is modelled.
- Output-profile inheritance (`extend`, `enabled`, `data`) is declared but resolved nowhere in the code, so it is not modelled.
- Restarted torrents are not put into `processed`, as in the code.
- Pages are integers: a `NaN` page is not modelled.
- `filesList`'s `createMessage` ignores its `modes` argument, and so does the model.
- The handlers that only send messages (`filesList`, `filesListPagable`, `filesListMode`, `filesMove`, `filesMovePagable`) are not modelled beyond the messages and keyboards they build.
- `StorageManager.filesList` walks the directory tree, and is not modelled.
- The `message == null` branch of the file-move listener cannot be reached once the text is passed as the listener expects: the text is then always a string.
- ProgressBar.ProgressBar.constructor: requires a positive total; with a total of 0 `render` divides by zero, and the panel always uses 100.
- ProgressBar.Clamp: requires a non-negative total, which the positive total of every bar gives.
- MediaPostProcessor.MediaPostProcessor.OnProgress: takes the rounded percent and the measured speed as given, not computed from `SpeedIndicator`.
- VideoMediaProcessor.Process: stops at starting ffmpeg. Its "end" event reaches the scheduler through `OnDone`. Its "error" event rejects the processor's promise, which `_process` catches: that is `Settle` with a rejected outcome. `OnError` models the scheduler's `_onError` handler, which nothing in the code triggers, since the video processor never emits "error".

## Findings

| source | as written | input that shows it | evidently intended | confidence | as-written member | corrected member |
|---|---|---|---|---|---|---|
| media-post-processor/src/service/mediaPostProcessor.ts:71-77 | `restoreProcessing` calls `_processNext` `2 - running` times, and each pass launches up to two jobs without counting the running ones | a cold start with four stored orders: two passes launch all four at once | at most `_maxTasks` jobs run at once, as the newer scheduler enforces by counting running jobs | not executed | LegacyMediaPostProcessor.ColdRestoreExceedsCeiling | MediaPostProcessor.MediaPostProcessor.DrainPass |
| media-post-processor/src/service/mediaPostProcessor.ts:261-270 | the older stream filter calls `Object.values(e.tags)` on every audio and subtitle stream, so a stream without tags throws and the order is rejected | a video stream and an audio stream without tags | streams without tags are kept, as the newer filter does by checking `e.tags` first | not executed | LegacyVideoPlan.TaglessAudioRejected | VideoMediaProcessor.ExcludedStreamsIff |
| media-telegram-manager-bot/src/service/telegram/chatStateManager.ts:51 | `process` emits `(message, data, {chatId, message})`, but the "file_move" listener takes `(data, {chatId, message})`. It reads the state's data from the message and the text from the data, so the text is always `undefined` | any reply in the "file_move" state, for example "/moveFileTo_0" | the listener gets the state's data and `{chatId, message}`, so the listed command moves the file and ends the dialogue | not executed | FilesMove.EmittedCommandIgnored | FilesMove.ListedCommandReachesListener |
