# bili-sync core, modelled in Dafny

bili-sync mirrors a Bilibili account's favorites, collections, submissions and
watch-later lists to disk and records live rooms. This project models the
sequential heart of it and proves what that logic promises. Each core source
file becomes one Dafny module, in its own form: state that the source updates
in place is a `class` whose methods say what they change, and expression code
is functions and lemmas.

- **HLS live recording** (RFC 8216).
  - `M3u8Parser`: numbers a media playlist's segments, with a 50-entry cache of sequence numbers already handed out.
  - `SegmentManager`: the segment list and its statistics, the cleanup policies, the local playlist and the `segments.log` journal.
  - `SegmentDownloader`: variant selection from a master playlist, URI resolution, sequence scheduling and download counters.
- **Live status and recorders.**
  - `WsClient`: the danmaku client's 16-byte big-endian packet header, frame and batch reading, the LIVE/PREPARING status machine and the reconnect back-off.
  - `LiveApi`: the room status and quality enums, the CDN node of a stream URL, and the five-entry stream URL pool.
  - `LiveConfig`: recording configuration enums, defaults and merge arguments.
  - `Recorder` and `FfmpegRecorder`: the two recorder state machines and their ffmpeg argument builders.
- **Download planning.**
  - `Downloader`: the HTTP range partition, Content-Range parsing (section 14.4 of RFC 9110), the single/parallel/fallback download control flow and the size checks.
  - `Aria2`: instance and thread arithmetic, load counters, least-loaded selection, start-up and health-check pruning.
- **Configuration.**
  - `ConfigManager`: dotted-key nesting and flattening, conflict resolution, the update guard and legacy normalisation over a small JSON datatype (`Json`).
  - `ConfigSources`: the video-source list and the start-up check.
- **Text and buffer utilities.**
  - `Notification`: Server酱 sanitising, byte-limit truncation, the scan report, send gating and retries.
  - `FileLogger`: CSV escaping (section 2 of RFC 4180), the log buffer, per-level routing and per-round rotation.
  - `IngestLog`: the ring buffer of ingested videos with its speed accumulators.
  - `AiRename`: the conversation cache, reply cleaning, inconsistency detection and sidecar renames.
  - `DeepseekWeb`: token-error classification, the one-shot expiry flag and server-sent-event parsing (section 9.2 of the HTML Living Standard).
- **Incremental scans.** `VideoSource`: the favorite and submission cut-off rules, progress records and source keys.
- **Python client.**
  - `Show`: sessions, buyers, the simulated click and the order payload of `show.py`.
  - `Geetest`: the captcha state object and its result path.

`Common`, `Bytes` and `Json` hold the shared vocabulary: Option/Result, Rust's `str` operations, number parsing and printing, big-endian and UTF-8 encoding, and JSON values.

Network replies, process outcomes, the clock and random draws are parameters of the operations that consume them.

## Model

| member | source | states |
|---|---|---|
| M3u8Parser.Remember | crates/bili_sync/src/live/m3u8_parser.rs:120-128 | after a mark the cache is non-empty, holds at most 50 numbers and ends with the number just marked |
| M3u8Parser.LatestOfLatest | crates/bili_sync/src/live/m3u8_parser.rs:125-127 | evicting the oldest entries before appending keeps the same newest 50 as evicting after |
| M3u8Parser.RememberAllKeepsLatest | crates/bili_sync/src/live/m3u8_parser.rs:120-128 | after any series of marks the cache is exactly the 50 most recent marks, or all of them when fewer, so duplicates are only caught among the last 50 |
| M3u8Parser.NumberingIndependent | crates/bili_sync/src/live/m3u8_parser.rs:46-63 | once a media-sequence tag precedes the first URI, every URI's number is independent of the parser's previous last_sequence |
| M3u8Parser.AllCachedEmitsNothing | crates/bili_sync/src/live/m3u8_parser.rs:85-96 | when every URI's number is already cached, a read emits no segment and leaves the cache as it was |
| M3u8Parser.ScanCachesAllNumbers | crates/bili_sync/src/live/m3u8_parser.rs:85-99 | while the cache has room, every URI's number ends up cached and no earlier entry is lost |
| M3u8Parser.ReparseEmitsNothing | crates/bili_sync/src/live/m3u8_parser.rs:200-215 | parsing the same playlist twice hands out no segment the second time (given a media-sequence tag and room in the cache) |
| M3u8Parser.Parser.constructor | crates/bili_sync/src/live/m3u8_parser.rs:33-40 | a new parser has last_sequence 0 and an empty cache |
| M3u8Parser.Parser.MarkSequenceProcessed | crates/bili_sync/src/live/m3u8_parser.rs:120-128 | the cache becomes the old cache with the number appended and the oldest entries dropped down to 50; last_sequence is unchanged |
| M3u8Parser.Parser.ReadLine | crates/bili_sync/src/live/m3u8_parser.rs:52-100 | one iteration of the line loop moves the running sequence, duration, cache and segment list exactly as one step of the reference scan |
| M3u8Parser.Parser.ParsePlaylist | crates/bili_sync/src/live/m3u8_parser.rs:43-110 | the segments and the cache are those of the reference scan started at last_sequence + 1 with duration 0; last_sequence becomes the last emitted segment's number, unchanged when none is emitted |
| M3u8Parser.ParseBiliAuxTimestamp | crates/bili_sync/src/live/m3u8_parser.rs:132-148 | None for a line without the `#BILI-AUX:` prefix; any result lies within i64 |
| M3u8Parser.ReadTimestamp | crates/bili_sync/src/live/m3u8_parser.rs:135-146 | a timestamp field reads as an i64 value or not at all |
| M3u8Parser.BiliAuxPrefersHex | crates/bili_sync/src/live/m3u8_parser.rs:137-142 | a field of decimal digits is read as hexadecimal whenever that fits in i64 ("10" gives 16) |
| SegmentManager.CountDownloaded | crates/bili_sync/src/live/segment_manager.rs:1141 | the number of downloaded records never exceeds the number of records |
| SegmentManager.StatsOf | crates/bili_sync/src/live/segment_manager.rs:1139-1157 | total_segments is the record count and bounds downloaded_segments; the start and end timestamps exist exactly when there is a record |
| SegmentManager.StatsOfAppend | crates/bili_sync/src/live/segment_manager.rs:1139-1157 | appending one record moves the statistics by that record alone: +1 record, +1 downloaded, its size and duration only when downloaded, the end timestamp becomes its own, the start only changes on the first record |
| SegmentManager.FailedRecordAddsNothing | crates/bili_sync/src/live/segment_manager.rs:1139-1157 | a record that was not downloaded, wherever it sits, adds nothing to the downloaded count, total_size or the total duration |
| SegmentManager.MaxDownloadedDuration | crates/bili_sync/src/live/segment_manager.rs:160-166 | the result bounds every downloaded duration and is one of them (or 0) |
| SegmentManager.TargetDuration | crates/bili_sync/src/live/segment_manager.rs:160-170 | the target duration in whole seconds covers every downloaded duration and is the least such value |
| SegmentManager.PlaylistLines | crates/bili_sync/src/live/segment_manager.rs:152-198 | the playlist opens with #EXTM3U, #EXT-X-VERSION:3 and the type line (EVENT when live, VOD otherwise), then the whole header, and ends with #EXT-X-ENDLIST when not live |
| SegmentManager.PlaylistHead | crates/bili_sync/src/live/segment_manager.rs:155-180 | after the three fixed lines, #EXT-X-TARGETDURATION with the target appears exactly when the target is positive and #EXT-X-MEDIA-SEQUENCE with the first record's sequence exactly when there is a record; every header line is a tag other than #EXTINF and #EXT-X-ENDLIST |
| SegmentManager.PlaylistListsDownloaded | crates/bili_sync/src/live/segment_manager.rs:152-198 | the playlist's #EXTINF tags are those of the downloaded records and its URI lines are their file names, both in list order; failed records leave no line |
| SegmentManager.SegmentLinesList | crates/bili_sync/src/live/segment_manager.rs:181-192 | the segment loop writes, per downloaded record in order, its #EXTINF tag and then its file name |
| SegmentManager.EndListExactlyWhenFinished | crates/bili_sync/src/live/segment_manager.rs:194-197 | the last line is #EXT-X-ENDLIST exactly when the playlist is not live, unless a segment file is itself named like the tag |
| SegmentManager.LogFields | crates/bili_sync/src/live/segment_manager.rs:399-418 | a journal line has exactly six fields |
| SegmentManager.ParseLogLine | crates/bili_sync/src/live/segment_manager.rs:450-481 | a line parses only when it has exactly six '\|'-fields, and the record is downloaded exactly when the sixth is "OK" |
| SegmentManager.RecordOfFields | crates/bili_sync/src/live/segment_manager.rs:458-480 | the parsed record is downloaded exactly when the last field is "OK" |
| SegmentManager.LogLineRoundTrip | crates/bili_sync/src/live/segment_manager.rs:399-481 | writing a record to the journal and parsing the line back recovers it, with the duration kept to the millisecond and the path rebuilt from the URL, provided the URL has no '\|' |
| SegmentManager.FieldsRoundTrip | crates/bili_sync/src/live/segment_manager.rs:458-480 | six fields that parse to a record's values rebuild that record |
| SegmentManager.JournalRoundTrip | crates/bili_sync/src/live/segment_manager.rs:421-447 | a journal written record by record loads back as those records, in order |
| SegmentManager.OksOfAllOk | crates/bili_sync/src/live/segment_manager.rs:434-438 | when every line parses, the loaded records are exactly the parsed ones |
| SegmentManager.SizePick | crates/bili_sync/src/live/segment_manager.rs:262-283 | one keep-or-drop decision per record |
| SegmentManager.SizeFoldKeepsOrder | crates/bili_sync/src/live/segment_manager.rs:262-283 | the size cleanup keeps an order-preserving subsequence of the records |
| SegmentManager.SizeFoldDropsRemovable | crates/bili_sync/src/live/segment_manager.rs:265-276 | every dropped record was downloaded and its file was deleted |
| SegmentManager.SizeFoldCounts | crates/bili_sync/src/live/segment_manager.rs:262-283 | every record is either kept or counted as removed |
| SegmentManager.SizeFoldFreedBytes | crates/bili_sync/src/live/segment_manager.rs:262-283 | the bytes freed come from downloaded records, and while they stay below the excess every removable downloaded record is dropped |
| SegmentManager.SizeFoldNoExcess | crates/bili_sync/src/live/segment_manager.rs:247-257 | with no excess nothing is dropped |
| SegmentManager.CountRemoved | crates/bili_sync/src/live/segment_manager.rs:224-236 | at most one removal per record examined |
| SegmentManager.AutoMergeDueCases | crates/bili_sync/src/live/segment_manager.rs:911-935 | false with no configuration; on the first merge, the configuration's own threshold test; afterwards also needs an end timestamp at least the threshold (in seconds) after the last merge |
| SegmentManager.FailedSegmentName | crates/bili_sync/src/live/segment_manager.rs:133 | the name reads segment_, at least six digits, .ts |
| SegmentManager.Manager.constructor | crates/bili_sync/src/live/segment_manager.rs:65-87 | the journal on disk is loaded, the statistics are those of the loaded records, and there is no auto-merge configuration or history |
| SegmentManager.Manager.LoadExistingSegments | crates/bili_sync/src/live/segment_manager.rs:421-447 | the records of the lines that parse are appended in order and the statistics refreshed |
| SegmentManager.Manager.LoadLogLine | crates/bili_sync/src/live/segment_manager.rs:434-438 | one line appends its record when it parses and nothing otherwise |
| SegmentManager.Manager.UpdateStats | crates/bili_sync/src/live/segment_manager.rs:1139-1157 | the statistics become those of the current records; nothing else changes |
| SegmentManager.Manager.WriteSegmentLog | crates/bili_sync/src/live/segment_manager.rs:399-418 | a successful write appends the record's line to the journal; a failed one leaves it as it was |
| SegmentManager.Manager.AddSegment | crates/bili_sync/src/live/segment_manager.rs:90-124 | a downloaded record is journalled, appended and the statistics refreshed; a failed journal write changes nothing |
| SegmentManager.Manager.MarkSegmentFailed | crates/bili_sync/src/live/segment_manager.rs:127-149 | a size-0, not-downloaded record named segment_NNNNNN.ts is journalled and appended, and the statistics are not refreshed |
| SegmentManager.Manager.CleanupSegments | crates/bili_sync/src/live/segment_manager.rs:213-244 | a no-op returning 0 when there are at most keep_count records; otherwise exactly the oldest excess records leave memory whether or not their files are deleted, and the count returned is at most that excess |
| SegmentManager.Manager.CleanupBySize | crates/bili_sync/src/live/segment_manager.rs:247-291 | nothing changes while the total size is within max_mb MiB; otherwise the records become the size cleanup's kept subsequence and the statistics are refreshed |
| SegmentManager.Manager.SmartCleanup | crates/bili_sync/src/live/segment_manager.rs:294-317 | over 200 records keeps the newest 150; else over 500 MiB shrinks to 400 MiB; else over 100 records keeps 100; else changes nothing; after each cleanup the statistics are recomputed from the kept records, and the count returned is the number of dropped records whose file removal succeeded (the size fold's removed count on the size branch) |
| SegmentManager.Manager.EmergencyCleanup | crates/bili_sync/src/live/segment_manager.rs:320-332 | keeps the newest min(30, n) records; when it cleans, the statistics are recomputed from the kept records; the count returned is the number of dropped records whose file removal succeeded |
| SegmentManager.Manager.SetAutoMergeConfig | crates/bili_sync/src/live/segment_manager.rs:899-903 | stores the configuration and changes nothing else |
| SegmentManager.Manager.PerformAutoMerge | crates/bili_sync/src/live/segment_manager.rs:938-979 | nothing happens when no merge is due; a failed merge changes nothing; a successful one records the end timestamp as the last merge and, unless segments are kept, clears the list and its statistics |
| SegmentDownloader.FirstStreamInf | crates/bili_sync/src/live/segment_downloader.rs:446-462 | the first #EXT-X-STREAM-INF: line whose trimmed next line contains ".m3u8", and None exactly when there is none |
| SegmentDownloader.FirstDirect | crates/bili_sync/src/live/segment_downloader.rs:463-472 | the first trimmed line starting "http" and containing ".m3u8", and None exactly when there is none |
| SegmentDownloader.VariantUrlChoice | crates/bili_sync/src/live/segment_downloader.rs:446-487 | the chosen URI names an ".m3u8" playlist; there is none exactly when neither kind of line exists; a stream-inf variant wins even over an earlier direct URL |
| SegmentDownloader.BaseUrlDirectory | crates/bili_sync/src/live/segment_downloader.rs:353-359 | with a '/', the base kept after a refresh equals the extractor's result, a prefix of the URL ending in '/' with no '/' after it; without one the refresh keeps the old base and the extractor returns the URL |
| SegmentDownloader.ResolveRelative | crates/bili_sync/src/live/segment_downloader.rs:178-187 | a relative URI lands after the base with its trailing '/'s cut, behind exactly one '/' |
| SegmentDownloader.ResolveIgnoresTrailingSlash | crates/bili_sync/src/live/segment_downloader.rs:186 | a trailing '/' on the base does not change the resolved URL |
| SegmentDownloader.SegmentFileNameIsLastComponent | crates/bili_sync/src/live/segment_downloader.rs:190-192 | the local file name is the URI's last '/'-component, a suffix of the URI without '/' |
| SegmentDownloader.Planned | crates/bili_sync/src/live/segment_downloader.rs:167-173 | scheduled sequences lie strictly above last_sequence and below media_sequence + n, at most one per entry |
| SegmentDownloader.PlannedStep | crates/bili_sync/src/live/segment_downloader.rs:167-173 | entry i is scheduled exactly when media_sequence + i exceeds the running last sequence |
| SegmentDownloader.PlannedAscending | crates/bili_sync/src/live/segment_downloader.rs:167-243 | scheduled sequences rise strictly, and their number is the count of entries above last_sequence |
| SegmentDownloader.ReplanSchedulesNothing | crates/bili_sync/src/live/segment_downloader.rs:118-243 | scheduling the same playlist again from where the round left off schedules nothing, and last_sequence never decreases |
| SegmentDownloader.NothingAbove | crates/bili_sync/src/live/segment_downloader.rs:170-172 | a playlist whose sequences all lie at or below last_sequence schedules nothing |
| SegmentDownloader.Schedule | crates/bili_sync/src/live/segment_downloader.rs:167-243 | the scheduling loop, moving last_sequence as it goes, schedules exactly the planned tasks and ends at the largest scheduled sequence |
| SegmentDownloader.Successes | crates/bili_sync/src/live/segment_downloader.rs:252-276 | at most one success per task |
| SegmentDownloader.Failures | crates/bili_sync/src/live/segment_downloader.rs:252-276 | successes and failures together never exceed the tasks |
| SegmentDownloader.Delivered | crates/bili_sync/src/live/segment_downloader.rs:252-260 | one callback per fetched segment |
| SegmentDownloader.OutcomesPartition | crates/bili_sync/src/live/segment_downloader.rs:212-216 | successes plus failures equal the task count exactly when no task came back 404 |
| SegmentDownloader.Tally | crates/bili_sync/src/live/segment_downloader.rs:252-276 | the loop over joined results counts exactly the successes, failures and bytes, and hands over the fetched segments in task order |
| SegmentDownloader.DeliveredAreFetched | crates/bili_sync/src/live/segment_downloader.rs:252-260 | every segment handed to the callback was scheduled and fetched with the size reported |
| SegmentDownloader.Downloader.constructor | crates/bili_sync/src/live/segment_downloader.rs:57-80 | a new downloader is Idle with no playlist URL, an empty base URL and zeroed statistics |
| SegmentDownloader.Downloader.Start | crates/bili_sync/src/live/segment_downloader.rs:87-98 | refused while Downloading; otherwise the status becomes Downloading and the start time is set, and the call succeeds exactly when the master playlist yields a variant |
| SegmentDownloader.Downloader.Stop | crates/bili_sync/src/live/segment_downloader.rs:296-303 | only a Downloading downloader returns to Idle; nothing else changes |
| SegmentDownloader.Downloader.RefreshM3u8Url | crates/bili_sync/src/live/segment_downloader.rs:416-487 | the first qualifying stream-inf variant, else the first direct URL, becomes the current URL and sets the base; with neither, or a failed fetch, an error and nothing changes |
| SegmentDownloader.Downloader.UseVariant | crates/bili_sync/src/live/segment_downloader.rs:473-476 | the variant becomes the current URL and the base is moved to its directory |
| SegmentDownloader.Downloader.StartRound | crates/bili_sync/src/live/segment_downloader.rs:118-280 | one pass of the loop schedules the entries above last_sequence, adds them to total_segments, adds the successes, failures and bytes, and hands over the fetched segments |
| SegmentDownloader.Downloader.Collect | crates/bili_sync/src/live/segment_downloader.rs:252-276 | the counters grow by exactly the successes, failures and bytes of the joined results |
| SegmentDownloader.Downloader.DownloadRound | crates/bili_sync/src/live/segment_downloader.rs:491-522 | without a URL or a playlist, an error and nothing changes, the parser's last sequence and cache included; otherwise the parser's last sequence and cache are those its scan of the playlist leaves, and every new segment adds 1 to total and exactly 1 to successful or failed, every fetched segment adds its size to total_bytes, and the fetched ones are returned |
| SegmentDownloader.Downloader.ParseRound | crates/bili_sync/src/live/segment_downloader.rs:498-499 | the segments handed out are exactly those the parser's scan of the playlist emits from its previous last sequence and cache; the parser then keeps the scan's cache and the last handed-out sequence (or the previous one when none is new) |
| SegmentDownloader.Downloader.FetchRound | crates/bili_sync/src/live/segment_downloader.rs:504-518 | the loop over the new segments returns the fetched ones and moves the four counters as one round over them does |
| SegmentDownloader.FetchAll | crates/bili_sync/src/live/segment_downloader.rs:498-519 | the fetching loop returns the fetched segments in order, and the bytes it adds are the sum of their sizes (segment_downloader.rs:576) |
| SegmentDownloader.Fetches | crates/bili_sync/src/live/segment_downloader.rs:498-519 | at most one result per segment |
| SegmentDownloader.FetchesConcat | crates/bili_sync/src/live/segment_downloader.rs:506-518 | fetching two lists of segments in turn fetches their concatenation |
| SegmentDownloader.RoundsCompose | crates/bili_sync/src/live/segment_downloader.rs:506-518 | two rounds counted one after the other leave the counters, total_bytes included, where one round over both rounds' segments would |
| WsClient.EncodeHeader | crates/bili_sync/src/live/ws_client.rs:350-367 | a packet header is exactly 16 bytes |
| WsClient.DecodeHeader | crates/bili_sync/src/live/ws_client.rs:413-417 | the five fields read from a frame fit their u32/u16 widths |
| WsClient.HeaderRoundTrip | crates/bili_sync/src/live/ws_client.rs:413-417 | reading the header of a written packet recovers the five values written, whatever body follows |
| WsClient.HeaderOfFrame | crates/bili_sync/src/live/ws_client.rs:413-417 | writing back the header read from a frame gives its first 16 bytes |
| WsClient.FramedShape | crates/bili_sync/src/live/ws_client.rs:337-369 | a framed body reads back with its own length (mod 2^32), header length 16, version 2, the operation and sequence 1, and the body follows the header |
| WsClient.AuthPacketShape | crates/bili_sync/src/live/ws_client.rs:337-369 | the auth packet's first u32 is its total length when below 4 GiB, the header reads back as 16/2/7/1, and the JSON body follows the header |
| WsClient.HeartbeatPacketShape | crates/bili_sync/src/live/ws_client.rs:372-393 | the heartbeat is exactly the 16 bytes 0,0,0,16, 0,16, 0,2, 0,0,0,2, 0,0,0,1 and reads back as length 16, header 16, version 2, operation 2, sequence 1 |
| WsClient.Observe | crates/bili_sync/src/live/ws_client.rs:619-643 | a status report is sent and remembered only when it differs from the last status seen |
| WsClient.NotificationAppendsAtMostOne | crates/bili_sync/src/live/ws_client.rs:528-602 | a notification appends at most one event, and one exactly when the remembered status changes |
| WsClient.NotificationIdempotent | crates/bili_sync/src/live/ws_client.rs:543-602 | delivering the same LIVE/PREPARING/ROOM_CHANGE message twice sends its event once |
| WsClient.RoomChangeStatus | crates/bili_sync/src/live/ws_client.rs:588-602 | ROOM_CHANGE records Live for live_status 1 and NotLive for anything else |
| WsClient.ShortFrameIgnored | crates/bili_sync/src/live/ws_client.rs:406-408 | a frame under 16 bytes changes nothing |
| WsClient.PopularityReported | crates/bili_sync/src/live/ws_client.rs:439-451 | an operation-3 frame with at least 4 body bytes sends PopularityChanged with the body's first big-endian u32 and changes nothing else |
| WsClient.FrameAppends | crates/bili_sync/src/live/ws_client.rs:396-490 | handling a frame only appends events |
| WsClient.PacketsAppend | crates/bili_sync/src/live/ws_client.rs:493-525 | handling a batch only appends events |
| WsClient.CheckedStepAdvances | crates/bili_sync/src/live/ws_client.rs:504-521 | every turn of the batch loop that goes on, with a non-zero declared length, moves the cursor forward |
| WsClient.BodySliceAsWritten | crates/bili_sync/src/live/ws_client.rs:423-436 | the body slice as written panics exactly when the declared header length exceeds the frame |
| WsClient.OverlongHeaderPanics | crates/bili_sync/src/live/ws_client.rs:423-436 | a 16-byte frame declaring a 17-byte header panics as written, while the checked reader rejects it and changes nothing |
| WsClient.ZeroLengthStallsAsWritten | crates/bili_sync/src/live/ws_client.rs:504-521 | a batch whose first packet declares length 0 sends the loop as written back to the same position, while the checked loop stops |
| WsClient.Connection.constructor | crates/bili_sync/src/live/ws_client.rs:73-83 | a new client remembers no live status and has sent nothing |
| WsClient.Connection.HandleBinaryMessage | crates/bili_sync/src/live/ws_client.rs:396-490 | the new status and events are those the frame model gives down to the given nesting depth (see Left out), and the call fails exactly when it says so |
| WsClient.Connection.ParseCompressedPackets | crates/bili_sync/src/live/ws_client.rs:493-525 | the packet loop processes the batch as the batch model does, in order, down to the given nesting depth (see Left out), stopping on a short tail or an overrunning length |
| WsClient.Connection.HandleNotificationMessage | crates/bili_sync/src/live/ws_client.rs:528-643 | the remembered status and the events become those of the notification model |
| WsClient.ConnectionLoop | crates/bili_sync/src/live/ws_client.rs:100-141 | the loop stops at the first clean end or after 10 failures; each failure sends one disconnect event carrying its error, and every failure but the tenth is followed by a pause of 2^min(n,6) seconds |
| WsClient.BackoffSchedule | crates/bili_sync/src/live/ws_client.rs:129-137 | the pauses of a full run of failures are 2, 4, 8, 16, 32, 64, 64, 64, 64 seconds, and no pause exceeds 64 seconds |
| LiveApi.LiveStatusFrom | crates/bili_sync/src/live/api.rs:18-25 | the status is Live exactly for 1; every other value, 2 included, is NotLive |
| LiveApi.LiveStatusRoundTrip | crates/bili_sync/src/live/api.rs:11-25 | converting a status to its discriminant and back gives the same status |
| LiveApi.QualityFrom | crates/bili_sync/src/live/api.rs:42-53 | any string other than the five names gives High |
| LiveApi.QualityKeysRoundTrip | crates/bili_sync/src/live/api.rs:42-53 | every quality is read back from its own name, and no two qualities share a code |
| LiveApi.BeforeFirst | crates/bili_sync/src/live/api.rs:180 | the text before the first '.' is a prefix without '.' |
| LiveApi.ExtractCdnNode | crates/bili_sync/src/live/api.rs:174-187 | the node never contains '/', and is either "unknown" or free of '.' |
| LiveApi.CdnNodeOfUrl | crates/bili_sync/src/live/api.rs:174-187 | for scheme://host/path the node is the host's first '.'-label |
| LiveApi.CdnNodeWithoutScheme | crates/bili_sync/src/live/api.rs:174-187 | a URL without "://" has node "unknown" |
| LiveApi.InsertByKey | crates/bili_sync/src/live/api.rs:254-257 | inserting into a sorted pool adds exactly one entry |
| LiveApi.SortByKey | crates/bili_sync/src/live/api.rs:254-257 | the sort keeps the number of entries |
| LiveApi.InsertByKeyPermutes | crates/bili_sync/src/live/api.rs:254-257 | an insertion adds exactly the new entry to the multiset |
| LiveApi.InsertByKeySorted | crates/bili_sync/src/live/api.rs:254-257 | inserting into a list sorted by last use keeps it sorted |
| LiveApi.SortByKeySorts | crates/bili_sync/src/live/api.rs:254-257 | the sort by last use (None as one hour ago) is ordered and a permutation of the pool |
| LiveApi.EvictsLeastRecentlyUsed | crates/bili_sync/src/live/api.rs:252-258 | the entry an overflowing add_url removes is one with the smallest last use, and all other entries stay |
| LiveApi.Unexpired | crates/bili_sync/src/live/api.rs:307-309 | retain keeps exactly the unexpired URLs |
| LiveApi.BestFrom | crates/bili_sync/src/live/api.rs:279-299 | None exactly when every URL has expired; otherwise an unexpired URL with the highest score, the earliest on a tie |
| LiveApi.StreamUrlPool.constructor | crates/bili_sync/src/live/api.rs:236-242 | a new pool is empty with index 0 |
| LiveApi.StreamUrlPool.AddUrl | crates/bili_sync/src/live/api.rs:245-268 | a URL already present changes nothing; otherwise it is appended, and on overflow the pool is sorted by last use, the first entry dropped and a positive index decremented, so the pool stays within 5 |
| LiveApi.StreamUrlPool.GetBestUrl | crates/bili_sync/src/live/api.rs:272-304 | None exactly for an empty pool; when every URL has expired the first one with index 0; otherwise the best unexpired one; afterwards the index is in range and points at the URL returned |
| LiveApi.StreamUrlPool.CleanupExpired | crates/bili_sync/src/live/api.rs:307-319 | exactly the expired URLs go; the index resets to 0 only when something went, it is out of range and the pool is not empty |
| LiveApi.StreamUrlPool.Clear | crates/bili_sync/src/live/api.rs:338-342 | the pool is empty and the index 0 |
| LiveConfig.ModeName | crates/bili_sync/src/live/config.rs:25-32 | the displayed names are lower-case |
| LiveConfig.ParseRecordingMode | crates/bili_sync/src/live/config.rs:34-44 | any string that is not a mode name in some case is the error "Invalid recording mode: " followed by the input |
| LiveConfig.ParseRecordingModeRoundTrip | crates/bili_sync/src/live/config.rs:25-44 | parsing inverts Display, and accepts a string exactly when its lower-case form is a mode's name |
| LiveConfig.ParseRecordingModeIgnoresCase | crates/bili_sync/src/live/config.rs:37-43 | parsing a string and its lower-case form agree |
| LiveConfig.FfmpegArgs | crates/bili_sync/src/live/config.rs:251-277 | every merge argument list ends with the timestamp-fixing flags |
| LiveConfig.FallbackFfmpegArgs | crates/bili_sync/src/live/config.rs:280-287 | the fallback re-encodes with libx264 and aac |
| LiveConfig.MergeArgsShape | crates/bili_sync/src/live/config.rs:251-287 | Auto gives the same arguments as StreamCopy, which copies; Reencode puts the video codec, audio codec and bitrate right after -c:v, -c:a and -b:v; the fallback is the same for every variant |
| LiveConfig.ShouldAutoMergeMonotone | crates/bili_sync/src/live/config.rs:244-246 | merging is due exactly from the threshold on while enabled, never while disabled, and stays due as the duration grows |
| LiveConfig.QualityName | crates/bili_sync/src/live/config.rs:187-198 | the name is one of the seven known names exactly for the seven known levels |
| LiveConfig.CustomName | crates/bili_sync/src/live/config.rs:196 | an unknown level reads "自定义(" followed by its number |
| LiveConfig.QualityNameInjective | crates/bili_sync/src/live/config.rs:187-198 | different levels never share a name |
| LiveConfig.AvailableQualities | crates/bili_sync/src/live/config.rs:201-239 | one entry per known level, in order, each named as get_quality_name names it |
| LiveConfig.AvailableQualitiesBestFirst | crates/bili_sync/src/live/config.rs:201-239 | seven entries from ORIGINAL down to SMOOTH, strictly best first, under distinct known names |
| LiveConfig.Defaults | crates/bili_sync/src/live/config.rs:19-23 | FFmpeg mode; auto-merge off with threshold 600, "mp4" and Auto quality; quality level 10000 named 原画 into "flv" |
| Recorder.LaunchError | crates/bili_sync/src/live/recorder.rs:96-140 | a start fails exactly when the directory cannot be created, ffmpeg is missing or the spawn fails, in that order |
| Recorder.Extension | crates/bili_sync/src/live/recorder.rs:373-378 | an extension never contains '.' or '/' |
| Recorder.FormatFor | crates/bili_sync/src/live/recorder.rs:372-407 | the muxer is always one of mp4, flv, matroska, mpegts |
| Recorder.ExtensionOfName | crates/bili_sync/src/live/recorder.rs:373-378 | a name "stem.ext" has extension ext |
| Recorder.FormatOfName | crates/bili_sync/src/live/recorder.rs:372-407 | by lower-cased extension: mp4 to mp4, mkv to matroska, ts to mpegts, any other to flv (flv included) |
| Recorder.NoExtensionIsFlv | crates/bili_sync/src/live/recorder.rs:372-407 | a file without an extension is written as flv |
| Recorder.BuildFfmpegArgs | crates/bili_sync/src/live/recorder.rs:339-413 | the argument list built group by group is the reference list for the URL, muxer and output path |
| Recorder.RecorderArgsShape | crates/bili_sync/src/live/recorder.rs:339-413 | "-i" is immediately followed by the stream URL and appears nowhere else, "-c copy" follows, and the muxer flag sits right before the output path, which is last |
| Recorder.LiveRecorder.constructor | crates/bili_sync/src/live/recorder.rs:62-73 | a new recorder is Idle with no process, stdin or stream URL and default statistics |
| Recorder.LiveRecorder.StartWithCdn | crates/bili_sync/src/live/recorder.rs:89-117 | refused with an error while Recording; otherwise succeeds exactly when the launch does, and then the status is Recording, ffmpeg runs on the stream, the stream URL is stored and start_time and is_recording are set; a failed start changes nothing |
| Recorder.LiveRecorder.Start | crates/bili_sync/src/live/recorder.rs:80-87 | a start on an unknown CDN node behaves as start_with_cdn |
| Recorder.LiveRecorder.Stop | crates/bili_sync/src/live/recorder.rs:238-319 | a no-op unless Recording; otherwise the process and stdin are taken, the status becomes Stopped, is_recording false, and the duration and (when readable) the file size are recorded |
| Recorder.LiveRecorder.CheckProcessStatus | crates/bili_sync/src/live/recorder.rs:416-462 | Ok(true) exactly while the process runs; without a process nothing changes; a clean exit gives Stopped and a failure Error, both with is_recording false; a failed wait is an Error status and an Err |
| Recorder.LiveRecorder.SeamlessSwitch | crates/bili_sync/src/live/recorder.rs:471-494 | the recording is stopped and started again on the new URL, succeeding exactly when the launch does |
| Recorder.ShouldSwitchAfterTenMinutes | crates/bili_sync/src/live/recorder.rs:502-516 | the switch is due exactly when a process exists, start_time is set and more than 600 whole seconds have passed |
| FfmpegRecorder.BuildFfmpegArgs | crates/bili_sync/src/live/ffmpeg_recorder.rs:276-352 | the argument list built group by group equals the reference list for the URL, the muxer chosen from the output path and the size limit |
| FfmpegRecorder.FfmpegArgsShape | crates/bili_sync/src/live/ffmpeg_recorder.rs:276-352 | the read timeout is always set and the URL follows "-i"; "-fs" and the limit appear exactly when the limit is positive, right before the output path, which is last |
| FfmpegRecorder.SizeLimitParses | crates/bili_sync/src/live/ffmpeg_recorder.rs:338-343 | the "-fs" argument reads back as the configured byte limit |
| FfmpegRecorder.FfmpegRecorder.constructor | crates/bili_sync/src/live/ffmpeg_recorder.rs:28-38 | a new recorder holds the output path and size limit, with no process, stdin or stream URL |
| FfmpegRecorder.FfmpegRecorder.StartWithCdn | crates/bili_sync/src/live/ffmpeg_recorder.rs:41-61 | no guard against a running process; succeeds exactly when the launch does, and then ffmpeg runs with the built arguments and the URL is stored; a failed start changes nothing |
| FfmpegRecorder.FfmpegRecorder.Stop | crates/bili_sync/src/live/ffmpeg_recorder.rs:169-233 | the process and stdin are taken and the stream URL is kept |
| FfmpegRecorder.FfmpegRecorder.CheckProcessStatus | crates/bili_sync/src/live/ffmpeg_recorder.rs:236-256 | Ok(true) exactly while a process runs and an error exactly when waiting on it fails |
| Downloader.SegmentCount | crates/bili_sync/src/downloader.rs:114-116 | the piece count is at least one, at most the thread count (unless one), and at most the size in bytes |
| Downloader.PartitionRanges | crates/bili_sync/src/downloader.rs:129-147 | the piece loop produces the reference ranges: every piece total/count bytes, the last taking the remainder |
| Downloader.RangesPartition | crates/bili_sync/src/downloader.rs:129-147 | the ranges start at byte 0, end at the last byte, follow each other without gap or overlap, are never empty and together request exactly the file |
| Downloader.ContiguousLength | crates/bili_sync/src/downloader.rs:129-147 | contiguous non-empty ranges request exactly the bytes from the first start to the last end |
| Downloader.ContiguousDisjoint | crates/bili_sync/src/downloader.rs:129-147 | contiguous non-empty ranges never overlap |
| Downloader.DownloadRange | crates/bili_sync/src/downloader.rs:372-407 | a range succeeds exactly when the answer is 206 with exactly the requested number of bytes, and then yields that count |
| Downloader.JoinAll | crates/bili_sync/src/downloader.rs:149-150 | the pieces succeed together exactly when each succeeds, and then the sum is the total requested length |
| Downloader.FetchParallel | crates/bili_sync/src/downloader.rs:94-159 | the parallel download is the reference outcome of its gates, ranges and piece downloads |
| Downloader.ParallelSucceedsIffPiecesArrive | crates/bili_sync/src/downloader.rs:94-159 | a parallel download succeeds exactly when every gate passes and every range comes back whole with 206; the final size check never rejects such pieces |
| Downloader.ParallelNeedsTwoThreads | crates/bili_sync/src/downloader.rs:95-117 | splitting happens only with at least two threads and a file of more than 1 MiB |
| Downloader.ParseTotalSize | crates/bili_sync/src/downloader.rs:196-200 | a parsed complete length always fits in 64 bits |
| Downloader.ContentRangeTotal | crates/bili_sync/src/downloader.rs:196-200 | "unit first-last/complete" yields the complete length |
| Downloader.UnknownTotal | crates/bili_sync/src/downloader.rs:196-200 | "*" after the last '/' or no '/' at all yields no length |
| Downloader.SizeAndRangeSupport | crates/bili_sync/src/downloader.rs:161-194 | a HEAD answer with a length and "bytes" in Accept-Ranges decides without probing; only a failed probe is an error |
| Downloader.FetchSingle | crates/bili_sync/src/downloader.rs:41-92 | a single-stream download succeeds exactly when a body arrives holding at least the announced length |
| Downloader.Fetch | crates/bili_sync/src/downloader.rs:25-39 | succeeds exactly when the parallel attempt (if enabled with more than one thread) or the single-stream download succeeds; without parallelism it is the single-stream result |
| Downloader.FirstSuccess | crates/bili_sync/src/downloader.rs:227-250 | the index of the first URL that downloads, with every earlier URL failing; none exactly when all fail |
| Downloader.FetchWithFallback | crates/bili_sync/src/downloader.rs:227-250 | no URLs is an error; success exactly when some URL downloads, after trying the URLs up to the first that does; when all fail every URL was tried and the error is the last URL's error under the context "failed to download from" and the list of URLs |
| Downloader.WithContext | crates/bili_sync/src/downloader.rs:246 | the context comes first and the cause can be read back whole after it |
| Downloader.ValidateMedia | crates/bili_sync/src/downloader.rs:313-369 | acceptance needs a readable file of at least 1024 bytes; without ffprobe such a file is accepted |
| Aria2.InstanceCount | crates/bili_sync/src/aria2_downloader.rs:103-129 | at most 8 processes, none exactly when there are no threads, and never more processes than threads |
| Aria2.InstanceCountMonotone | crates/bili_sync/src/aria2_downloader.rs:103-129 | more threads never means fewer processes |
| Aria2.ThreadCap | crates/bili_sync/src/aria2_downloader.rs:207-224 | below 17 threads the ceiling is the thread count itself; otherwise it lies between 16 and 32 |
| Aria2.ThreadsPerInstance | crates/bili_sync/src/aria2_downloader.rs:207-224 | the share never exceeds the total or the ceiling, is at least one when there are threads, and is either the ceiling or the rounded-up quotient of threads by instances |
| Aria2.CeilShare | crates/bili_sync/src/aria2_downloader.rs:207-224 | the rounded-up share is the ceiling of total / count and at most the total |
| Aria2.SmartThreads | crates/bili_sync/src/aria2_downloader.rs:227-242 | every file gets at least one connection, files up to 2 MiB exactly one, files up to 1000 MiB at most their tier and the base share, larger files at least the base share and at most 16 or the total |
| Aria2.SmartThreadsGrowWithSize | crates/bili_sync/src/aria2_downloader.rs:227-242 | a bigger file never gets fewer connections |
| Aria2.TaskThreads | crates/bili_sync/src/aria2_downloader.rs:722-735 | without a known size the instance's share; with one at least one connection and never more than the total |
| Aria2.FirstLeastLoaded | crates/bili_sync/src/aria2_downloader.rs:627-643 | the index holds a least load and every earlier instance is strictly busier |
| Aria2.SelectBest | crates/bili_sync/src/aria2_downloader.rs:627-643 | an error exactly when there is no instance, otherwise a valid index |
| Aria2.DecrementUndoesIncrement | crates/bili_sync/src/aria2_downloader.rs:47-56 | a decrement undoes an increment, wrap-around included |
| Aria2.AddTaskOutcome | crates/bili_sync/src/aria2_downloader.rs:798-811 | the task succeeds exactly when the reply carries a string result, which is the GID |
| Aria2.StatusStep | crates/bili_sync/src/aria2_downloader.rs:850-885 | "complete" finishes, "error" and "removed" fail (an error with a "Download failed: " message), everything else waits |
| Aria2.WaitForDownload | crates/bili_sync/src/aria2_downloader.rs:815-887 | over finite poll replies: none exactly when every poll waits, otherwise the result of the first deciding poll |
| Aria2.AsWrittenLeaksLoad | crates/bili_sync/src/aria2_downloader.rs:646-707 | as written, a failed addUri returns an error with the chosen instance's load still raised by one |
| Aria2.FetchBalancesLoad | crates/bili_sync/src/aria2_downloader.rs:646-707 | the corrected download leaves every load as it found it and succeeds exactly when every step does |
| Aria2.AsWrittenOtherwiseAgrees | crates/bili_sync/src/aria2_downloader.rs:646-707 | apart from the failed addUri path the as-written and corrected downloads agree |
| Aria2.LaunchAll | crates/bili_sync/src/aria2_downloader.rs:267-297 | at most one instance per attempt, each started with no load and alive |
| Aria2.LaunchAllStops | crates/bili_sync/src/aria2_downloader.rs:267-297 | once a run has failed, later attempts are not made |
| Aria2.HealthyIsLive | crates/bili_sync/src/aria2_downloader.rs:1008-1018 | the survivors are exactly the live instances of the pool |
| Aria2.HealthyAppend | crates/bili_sync/src/aria2_downloader.rs:1008-1018 | pruning distributes over concatenation |
| Aria2.RemoveStep | crates/bili_sync/src/aria2_downloader.rs:1015-1018 | removing the next dead index from the back turns the list pruned from the later bound into the list pruned from that index |
| Aria2.DeadBelowListed | crates/bili_sync/src/aria2_downloader.rs:1008-1013 | the collected indices list exactly the dead instances, increasing |
| Aria2.CollectStep | crates/bili_sync/src/aria2_downloader.rs:1008-1013 | one more index grows the list by it exactly when that instance is dead |
| Aria2.CollectDead | crates/bili_sync/src/aria2_downloader.rs:1008-1013 | the first loop collects the indices of the dead instances in increasing order, as many as there are dead instances |
| Aria2.RemoveDescending | crates/bili_sync/src/aria2_downloader.rs:1015-1018 | removing the dead indices from the back leaves exactly the live instances in their order |
| Aria2.LivePrefixPruned | crates/bili_sync/src/aria2_downloader.rs:1015-1018 | a list whose first b instances live is that prefix followed by the pruned rest |
| Aria2.Aria2Downloader.constructor | crates/bili_sync/src/aria2_downloader.rs:79-100 | the instance count follows the configured thread count and no instance is running yet |
| Aria2.Aria2Downloader.StartAllInstances | crates/bili_sync/src/aria2_downloader.rs:267-297 | a missing port or failed spawn aborts leaving the instances unchanged; none started is an error; otherwise the started instances replace the list |
| Aria2.Aria2Downloader.SelectBestInstance | crates/bili_sync/src/aria2_downloader.rs:627-643 | the first least-loaded instance with its port and secret, or the fixed error when there is none |
| Aria2.Aria2Downloader.IncrementLoad | crates/bili_sync/src/aria2_downloader.rs:47-52 | the load at the index grows by one, wrapping at the word size; an out-of-range index changes nothing |
| Aria2.Aria2Downloader.DecrementLoad | crates/bili_sync/src/aria2_downloader.rs:54-56 | the load at the index shrinks by one, wrapping below zero; an out-of-range index changes nothing |
| Aria2.Aria2Downloader.FetchWithAria2Fallback | crates/bili_sync/src/aria2_downloader.rs:646-707 | with the load released on every path, the loads end as they began and the result is that of the reference download |
| Aria2.Aria2Downloader.HealthCheck | crates/bili_sync/src/aria2_downloader.rs:1003-1057 | the dead instances are removed and one restart attempt is made per removed instance; a missing port is an error; an empty pool afterwards is an error |
| ConfigManager.InsertNested | crates/bili_sync/src/config/manager.rs:353-375 | an empty path changes nothing; otherwise the head is added and every other key is untouched; a non-object on the way stops the insertion |
| ConfigManager.InsertThenLookup | crates/bili_sync/src/config/manager.rs:353-375 | along an open path the inserted value is found again |
| ConfigManager.SplitOfDotted | crates/bili_sync/src/config/manager.rs:140 | a key without '.' is its own single piece, a dotted key splits into at least two |
| ConfigManager.Flatten | crates/bili_sync/src/config/manager.rs:494-507 | flattening succeeds exactly on an object, and its items are then the object's members |
| ConfigManager.NestItems | crates/bili_sync/src/config/manager.rs:138-149 | in any iteration order the object's keys are the items' heads, an undotted item nothing else nests under arrives unchanged, and without dotted keys the items come back as they are |
| ConfigManager.NestStep | crates/bili_sync/src/config/manager.rs:140-148 | one step adds the key's head, changes no other member and stores an undotted key as it is |
| ConfigManager.ResolveOne | crates/bili_sync/src/config/manager.rs:596-638 | one prefix's step only removes items |
| ConfigManager.PrefixesApart | crates/bili_sync/src/config/manager.rs:596-638 | no key lies under two of the three prefixes, and none of the whole keys lies under another prefix |
| ConfigManager.ResolveConfigConflicts | crates/bili_sync/src/config/manager.rs:596-638 | exactly the dropped items are removed, the rest are untouched, and afterwards none of the three prefixes is in conflict |
| ConfigManager.NotificationStep | crates/bili_sync/src/config/manager.rs:596-638 | the notification step drops exactly the dotted notification keys of a conflict and leaves the other prefixes' conflicts as they were |
| ConfigManager.WholeStep | crates/bili_sync/src/config/manager.rs:596-638 | the concurrent_limit and submission_risk_control steps drop at most the whole object and leave the other prefixes' conflicts as they were |
| ConfigManager.NoNewConflict | crates/bili_sync/src/config/manager.rs:596-638 | removing items never creates a conflict |
| ConfigManager.ResolvedItems | crates/bili_sync/src/config/manager.rs:596-638 | the three steps together drop exactly the dropped items and leave no conflict |
| ConfigManager.BuildConfigFromMap | crates/bili_sync/src/config/manager.rs:131-170 | the result is an object; a whole notification object survives unchanged; items without dots come back as they are |
| ConfigManager.FlattenThenBuild | crates/bili_sync/src/config/manager.rs:131-152 | flattening an object and building it back from the items gives the same object when no top-level key has a dot; a non-object is refused |
| ConfigManager.NotificationSurvives | crates/bili_sync/src/config/manager.rs:131-149 | resolution keeps a whole notification object and removes every dotted notification item beside it, so folding keeps it as it is |
| ConfigManager.NotificationUnshadowed | crates/bili_sync/src/config/manager.rs:596-638 | with no notification conflict left, no other item nests under a surviving notification object |
| ConfigManager.UndottedUnresolved | crates/bili_sync/src/config/manager.rs:596-638 | items without dots have no conflict, so resolution keeps them all |
| ConfigManager.ConfigStore.constructor | crates/bili_sync/src/config/manager.rs:28-30 | a new store has no items and no history |
| ConfigManager.ConfigStore.UpdateConfigItem | crates/bili_sync/src/config/manager.rs:436-483 | a dotted notification key is refused without writing; any other key is inserted or replaced, with a history row holding the old and new value when recording succeeds; the store stays free of dotted notification items |
| ConfigManager.MoveNotifiers | crates/bili_sync/src/config/manager.rs:247-253 | the notification step moves the legacy notifiers and touches nothing else |
| ConfigManager.ApplySkipOption | crates/bili_sync/src/config/manager.rs:254-280 | the skip switches are read from a skip_option object and disable the matching nfo_config fields; only nfo_config changes |
| ConfigManager.MoveTimeType | crates/bili_sync/src/config/manager.rs:281-290 | nfo_time_type becomes nfo_config.time_type when nfo_config is an object or missing; only nfo_config changes |
| ConfigManager.NfoStepsConvert | crates/bili_sync/src/config/manager.rs:254-290 | the two nfo_config steps together perform the whole nfo conversion |
| ConfigManager.ConvertDownload | crates/bili_sync/src/config/manager.rs:291-323 | the legacy download object becomes parallel_download under concurrent_limit; nothing else changes |
| ConfigManager.CollectUnmapped | crates/bili_sync/src/config/manager.rs:235-245 | exactly the listed legacy fields present in the configuration are kept aside, with their values |
| ConfigManager.NormalizeLegacyConfigValue | crates/bili_sync/src/config/manager.rs:225-326 | a non-object comes back unchanged with default flags; an object is converted field group by field group, with the danmaku and subtitle switches reported and the legacy fields kept aside |
| ConfigManager.NormalizeLegacyObject | crates/bili_sync/src/config/manager.rs:235-326 | the conversion of an object: converted groups, reported switches and fields kept aside |
| ConfigManager.SkipFlagsKept | crates/bili_sync/src/config/manager.rs:247-253 | the notification step leaves the skip options as they were |
| ConfigManager.KeptAsideCollected | crates/bili_sync/src/config/manager.rs:235-296 | the listed fields, then the skip options and the legacy download limit, make up what is kept aside |
| ConfigManager.LegacyStepsCompose | crates/bili_sync/src/config/manager.rs:247-323 | the steps touch disjoint fields, so each one's effect carries over to the final object |
| ConfigManager.ParallelDownloadDefaults | crates/bili_sync/src/config/manager.rs:297-318 | parallel_download is enabled unless the legacy switch is false, has four threads unless a u64 concurrency is given, and use_aria2 only when that boolean is present |
| ConfigManager.SkipUpdates | crates/bili_sync/src/config/manager.rs:329-351 | danmaku and subtitle downloads are switched off exactly as the legacy options say |
| ConfigManager.SkipOptionStatements | crates/bili_sync/src/config/manager.rs:329-351 | nothing to run when neither option is set; otherwise one UPDATE per source table with the assignments joined by ", " |
| ConfigManager.SkipClauseShape | crates/bili_sync/src/config/manager.rs:329-351 | the assignment clause is never empty when used, and names danmaku first when both are set |
| ConfigSources.Entries | crates/bili_sync/src/config/mod.rs:322-380 | a map walk yields every entry exactly once, in an order the map does not fix |
| ConfigSources.AsVideoSources | crates/bili_sync/src/config/mod.rs:322-380 | every source the configuration names is listed group by group, the v2 lists replacing the legacy maps when not empty |
| ConfigSources.GroupsListed | crates/bili_sync/src/config/mod.rs:322-380 | the concatenated groups are the listing of the configuration's sources |
| ConfigSources.Check | crates/bili_sync/src/config/mod.rs:383-471 | a credential problem is fatal and panics after everything is reported; otherwise the verdict is true exactly when the configuration is acceptable |
| ConfigSources.PathsAbsolute | crates/bili_sync/src/config/mod.rs:392-398 | the source loop reports whether every source path is absolute |
| ConfigSources.BangumiAbsolute | crates/bili_sync/src/config/mod.rs:399-405 | the bangumi loop reports whether every bangumi path is absolute |
| ConfigSources.SourcesCounted | crates/bili_sync/src/config/mod.rs:383-391 | the listed sources are empty exactly when the configuration names nothing to scan |
| ConfigSources.EntriesAbsolute | crates/bili_sync/src/config/mod.rs:392-398 | a walk over a map's entries sees every path of the map |
| ConfigSources.SourcePathsChecked | crates/bili_sync/src/config/mod.rs:392-405 | checking the listed sources' paths is checking every path the configuration names |
| ConfigSources.WatchLaterPathChecked | crates/bili_sync/src/config/mod.rs:322-380 | the watch-later source's path is checked exactly when it is enabled |
| ConfigSources.FavoritePathsChecked | crates/bili_sync/src/config/mod.rs:322-380 | the listed favourites' paths are those of the favourite folders |
| ConfigSources.CollectionPathsChecked | crates/bili_sync/src/config/mod.rs:322-380 | the listed collections' paths are those of the collections |
| ConfigSources.SubmissionPathsChecked | crates/bili_sync/src/config/mod.rs:322-380 | the listed submissions' paths are those of the submitters |
| ConfigSources.BangumiPathsChecked | crates/bili_sync/src/config/mod.rs:322-380 | the listed bangumi paths are those of the bangumi entries |
| ConfigSources.DefaultConfigRejected | crates/bili_sync/src/config/mod.rs:173-200 | the default configuration names nothing to scan, so the check never accepts it as it is; its templates are set and its upper path is absolute under an absolute configuration directory |
| Notification.SanitizeForServerchan | crates/bili_sync/src/utils/notification.rs:132-146 | the result is clean and never longer than the input |
| Notification.SanitizeKeepsClean | crates/bili_sync/src/utils/notification.rs:132-146 | clean text is left as it is |
| Notification.SanitizeIdempotent | crates/bili_sync/src/utils/notification.rs:132-146 | cleaning twice is cleaning once |
| Notification.SanitizeAppend | crates/bili_sync/src/utils/notification.rs:132-146 | cleaning works piece by piece |
| Notification.TruncateAsWrittenMisfires | crates/bili_sync/src/utils/notification.rs:309-319 | as written, 1301 Chinese characters (3903 bytes) are over the WeCom limit yet kept whole, with the notice claiming a cut |
| Notification.TruncateAsWrittenOverflows | crates/bili_sync/src/utils/notification.rs:322-332 | as written, 4001 Chinese characters come out at more bytes than the markdown limit the guard enforces |
| Notification.TakeBytes | crates/bili_sync/src/utils/notification.rs:309-332 | the longest prefix fitting the byte budget: a prefix, within budget, and the next character would not fit |
| Notification.TruncateFits | crates/bili_sync/src/utils/notification.rs:309-332 | a message within the limit is kept whole; a longer one keeps a proper prefix plus the notice and then fits the limit |
| Notification.AsciiTakeBytes | crates/bili_sync/src/utils/notification.rs:309-332 | on ASCII text the byte budget cuts where the character count does |
| Notification.AsciiTruncateAgrees | crates/bili_sync/src/utils/notification.rs:309-332 | on ASCII text the corrected and the as-written truncation agree |
| Notification.DeserializeCode | crates/bili_sync/src/utils/notification.rs:28-45 | an integer in the i32 range, or a string parsing as one, is accepted; anything else is refused |
| Notification.DeserializeCodeRoundTrip | crates/bili_sync/src/utils/notification.rs:28-45 | a code written as a number or as a string reads back as itself |
| Notification.InsertVideoPermutes | crates/bili_sync/src/utils/notification.rs:394-408 | inserting adds the one video and loses none |
| Notification.SortVideosDescending | crates/bili_sync/src/utils/notification.rs:394-408 | the sort orders bangumi by episode and the rest by publication time, newest first, and is a permutation |
| Notification.DatePartIsDate | crates/bili_sync/src/utils/notification.rs:433-444 | the date shown is the prefix of the time before its first space, the whole time when it has none |
| Notification.ListVideosShape | crates/bili_sync/src/utils/notification.rs:410-452 | a source's list holds the lines it listed in order, with the note when it stopped early |
| Notification.SourceBlockShape | crates/bili_sync/src/utils/notification.rs:394-455 | a block opens with the source's heading and lists at most twenty of its videos |
| Notification.ListedExtends | crates/bili_sync/src/utils/notification.rs:410-452 | a list, and whatever follows it, extends the text before it |
| Notification.WrappingSub | crates/bili_sync/src/utils/notification.rs:357 | the usize subtraction wraps below zero and is exact otherwise |
| Notification.TruncateKeepsSanitized | crates/bili_sync/src/utils/notification.rs:459-473 | the cut of clean text is clean |
| Notification.ScanMessageFits | crates/bili_sync/src/utils/notification.rs:334-474 | with the cut corrected to count bytes (see Findings), the message is clean, fits 30000 bytes, and is the whole cleaned report whenever that fits |
| Notification.AsWrittenKeepsShort | crates/bili_sync/src/utils/notification.rs:464-466 | as written, the cut of any text over the byte limit but within the character budget keeps it whole, appends the notice, and stays over the byte limit |
| Notification.ScanMessageAsWrittenOverflows | crates/bili_sync/src/utils/notification.rs:460-471 | as written, a cleaned report over 30000 bytes but of at most 29900 characters is kept whole, gets the notice, and goes out over the limit, where the corrected message fits |
| Notification.ScanCutAsWrittenOverflows | crates/bili_sync/src/utils/notification.rs:464-466 | as written, 10001 Chinese characters (30003 bytes) pass the cut untouched and come out at 30032 bytes |
| Notification.FormatScanMessage | crates/bili_sync/src/utils/notification.rs:334-474 | the fixed title, and content that is the scan message with the corrected byte cut (see Findings), clean and within the limit |
| Notification.AppendSources | crates/bili_sync/src/utils/notification.rs:353-392 | the loop over the sources builds the reference list of sources |
| Notification.AppendStopNote | crates/bili_sync/src/utils/notification.rs:355-369 | the note that ends the list once the report is too long is the reference list's end |
| Notification.AppendBlock | crates/bili_sync/src/utils/notification.rs:370-456 | one source's block is one step of the reference list |
| Notification.AppendSource | crates/bili_sync/src/utils/notification.rs:394-456 | one source's block: heading, up to twenty videos newest first, and the notes |
| Notification.AppendLines | crates/bili_sync/src/utils/notification.rs:410-452 | the video loop lists a line per video until the quota is reached or the report is too long |
| Notification.ScanRequestGating | crates/bili_sync/src/utils/notification.rs:148-225 | a request is made exactly when notifications are on, enough videos were found, and the active channel is Server酱 with a key or WeCom with a webhook and a supported message type |
| Notification.ChannelRequestFits | crates/bili_sync/src/utils/notification.rs:227-332 | Server酱 gets the message at its key's URL; WeCom text carries at most 3900 bytes after the title; WeCom markdown at most 4000 bytes |
| Notification.ScanRequestFits | crates/bili_sync/src/utils/notification.rs:148-332 | with the corrected byte cuts (see Findings), what a scan sends keeps to the limits, and Server酱 gets clean text of at most 30000 bytes |
| Notification.Deliver | crates/bili_sync/src/utils/notification.rs:178-218 | the retry loop posts the request on each attempt and stops at the first acceptance |
| Notification.SendScanCompletion | crates/bili_sync/src/utils/notification.rs:148-225 | the requests sent and the delivery verdict are those of the retry loop over the gated request, whose content uses the corrected byte cut (see Findings) |
| FileLogger.LogFileNameInjective | crates/bili_sync/src/utils/file_logger.rs:69-91 | different kinds or different round identifiers never share a file |
| FileLogger.EscapeCsv | crates/bili_sync/src/utils/file_logger.rs:200-206 | a field is quoted exactly when it holds a comma, quote or line break, and is otherwise kept |
| FileLogger.EscapeCsvRoundTrip | crates/bili_sync/src/utils/file_logger.rs:200-206 | reading an escaped field back gives the original |
| FileLogger.WriteEntryRoutes | crates/bili_sync/src/utils/file_logger.rs:209-244 | one entry's line goes to exactly the files of the round it is routed to |
| FileLogger.WriteEntriesElsewhere | crates/bili_sync/src/utils/file_logger.rs:209-244 | a file that is not one of the round's five is never written |
| FileLogger.WriteEntriesRoutes | crates/bili_sync/src/utils/file_logger.rs:209-244 | every file of the round receives exactly the lines of the entries routed to it, in logging order |
| FileLogger.WriteEntriesKeys | crates/bili_sync/src/utils/file_logger.rs:209-244 | writing never removes a file |
| FileLogger.WriteEntriesConcat | crates/bili_sync/src/utils/file_logger.rs:174-244 | writing a batch in two parts is writing it at once, so buffering changes only when lines arrive |
| FileLogger.CreateFirst | crates/bili_sync/src/utils/file_logger.rs:69-81 | when creation stops after the first n files (all, debug, info, warn, error in that order), exactly those n files are added or truncated to the header and every other file is untouched |
| FileLogger.CreateRound | crates/bili_sync/src/utils/file_logger.rs:69-91 | the round's five files hold just the header; other files are untouched |
| FileLogger.TakenBound | crates/bili_sync/src/utils/file_logger.rs:93-106 | only as many candidates as there are files can be taken, so the search ends |
| FileLogger.FirstFreeIndex | crates/bili_sync/src/utils/file_logger.rs:93-106 | the first candidate from k on whose all-file is absent |
| FileLogger.UniqueLogIdIsFirstFree | crates/bili_sync/src/utils/file_logger.rs:93-106 | the round's all-file is new and every earlier candidate was taken |
| FileLogger.GenerateUniqueLogId | crates/bili_sync/src/utils/file_logger.rs:93-106 | the loop finds the first free candidate identifier |
| FileLogger.RotationKeepsPreviousRound | crates/bili_sync/src/utils/file_logger.rs:108-117 | a new round never reuses the current identifier, so creating its files, all of them or only the first few, leaves the previous round's files as they were |
| FileLogger.FileLogWriter.constructor | crates/bili_sync/src/utils/file_logger.rs:41-67 | the round is named after the start-up time, its files are created and the buffer is empty |
| FileLogger.FileLogWriter.CurrentLogFileName | crates/bili_sync/src/utils/file_logger.rs:119-128 | the four known levels get their own file, anything else the all-file |
| FileLogger.FileLogWriter.WriteLog | crates/bili_sync/src/utils/file_logger.rs:174-198 | the entry is buffered; at 1000 buffered entries all are written out and the buffer emptied |
| FileLogger.FileLogWriter.WriteEntriesToFiles | crates/bili_sync/src/utils/file_logger.rs:209-244 | the files become those with the entries written; buffer and round unchanged |
| FileLogger.FileLogWriter.Flush | crates/bili_sync/src/utils/file_logger.rs:247-270 | everything buffered is written out and the buffer is empty |
| FileLogger.FileLogWriter.RotateForNewRound | crates/bili_sync/src/utils/file_logger.rs:108-117 | flushes, then on success switches to the first free identifier with fresh files; when a file cannot be created it keeps the round, and the new round's files created before the failure stay in the directory |
| FileLogger.GlobalLogger.constructor | crates/bili_sync/src/utils/file_logger.rs:313-319 | the global logger holds the writer and skips the first rotation |
| FileLogger.GlobalLogger.GetCurrentLogFileName | crates/bili_sync/src/utils/file_logger.rs:348-354 | a name exactly when a writer exists, the writer's name for the level |
| FileLogger.GlobalLogger.RotateLogFilesForNewRound | crates/bili_sync/src/utils/file_logger.rs:330-346 | the first request only flushes; later requests rotate and report the new identifier, or nothing when rotation fails, leaving the files created before the failure |
| IngestLog.SaturatingAdd | crates/bili_sync/src/ingest_log.rs:47-52 | the sum, or u64::MAX when it would overflow; never below the first operand |
| IngestLog.Add | crates/bili_sync/src/ingest_log.rs:47-52 | both counters grow by the sample and saturate at u64::MAX instead of wrapping |
| IngestLog.AvgBps | crates/bili_sync/src/ingest_log.rs:54-64 | absent exactly when no byte or no millisecond was counted; otherwise the bytes per second rounded down, saturating at u64::MAX |
| IngestLog.SampleDefinesSpeed | crates/bili_sync/src/ingest_log.rs:47-64 | a sample with at least one byte and one millisecond makes the speed defined |
| IngestLog.Pushed | crates/bili_sync/src/ingest_log.rs:105-116 | the event goes first, the older events follow in order, and at most the capacity remains |
| IngestLog.Latest | crates/bili_sync/src/ingest_log.rs:119-122 | the first limit events (all of them when fewer), newest first |
| IngestLog.LatestAfterPush | crates/bili_sync/src/ingest_log.rs:90-122 | after finishing a video, the latest k events are it followed by the k-1 latest before |
| IngestLog.IngestLog.constructor | crates/bili_sync/src/ingest_log.rs:74-80 | a new log with the given capacity, no events and no counters |
| IngestLog.IngestLog.AddDownloadSample | crates/bili_sync/src/ingest_log.rs:83-87 | the video's counters, started at zero, grow by the sample; no other video's counters change |
| IngestLog.IngestLog.FinishVideo | crates/bili_sync/src/ingest_log.rs:90-117 | the video's counters are consumed into its average speed and its event is pushed at the front within the capacity |
| IngestLog.IngestLog.ListLatest | crates/bili_sync/src/ingest_log.rs:119-122 | the latest events, newest first, with the log unchanged |
| AiRename.Remember | crates/bili_sync/src/utils/ai_rename.rs:43-56 | a full history (20 messages) drops its oldest two; the new message is appended last; the length stays within 20 |
| AiRename.RememberKeepsRecent | crates/bili_sync/src/utils/ai_rename.rs:43-56 | before the new message, the history kept is exactly the newest messages of the old one, in order; only the two oldest of a full history are lost, and each survivor keeps its place counted from the newest |
| AiRename.ConversationCache.constructor | crates/bili_sync/src/utils/ai_rename.rs:13-24 | the cache starts with no histories |
| AiRename.ConversationCache.History | crates/bili_sync/src/utils/ai_rename.rs:59-65 | an unknown source has an empty history, a known one its own |
| AiRename.ConversationCache.ClearNamingCache | crates/bili_sync/src/utils/ai_rename.rs:27-32 | forgets one source and only that one |
| AiRename.ConversationCache.ClearAllNamingCache | crates/bili_sync/src/utils/ai_rename.rs:35-40 | forgets every source |
| AiRename.ConversationCache.AddConversationMessage | crates/bili_sync/src/utils/ai_rename.rs:43-56 | the source's history is remembered with the new message last and at most 20 messages; other sources are untouched |
| AiRename.Prompt | crates/bili_sync/src/utils/ai_rename.rs:176-189 | the source's own prompt for the media kind when non-empty, the global hint otherwise |
| AiRename.BuildMessages | crates/bili_sync/src/utils/ai_rename.rs:210-232 | the system message, then the history, then the new user message |
| AiRename.ScrubbedIsClean | crates/bili_sync/src/utils/ai_rename.rs:267-268 | scrubbing leaves none of the characters it removes or replaces |
| AiRename.ScrubbedIdempotent | crates/bili_sync/src/utils/ai_rename.rs:267-268 | scrubbing twice is scrubbing once |
| AiRename.CleanName | crates/bili_sync/src/utils/ai_rename.rs:267-278 | none exactly when the sanitised name is empty; otherwise a non-empty prefix of it of at most 180 characters, the whole name when it fits |
| AiRename.ReplyText | crates/bili_sync/src/utils/ai_rename.rs:257-265 | the trimmed first choice, or an error when the request failed or had no choice |
| AiRename.AiGenerateFilename | crates/bili_sync/src/utils/ai_rename.rs:152-290 | without a key an error and no request; otherwise the request is system, history and user message, success exactly when the reply cleans to a name, and then the exchange is remembered; a failure leaves the history alone |
| AiRename.SelectedStems | crates/bili_sync/src/utils/ai_rename.rs:430-446 | only stems of the list are selected, at most one per piece |
| AiRename.SelectedStemsComplete | crates/bili_sync/src/utils/ai_rename.rs:430-446 | every piece naming an index in range selects that stem |
| AiRename.FindInconsistentFilenames | crates/bili_sync/src/utils/ai_rename.rs:350-449 | fewer than three stems ask nothing; without a key an error; otherwise a reply saying none selects nothing and any other reply selects the stems its indices name |
| AiRename.SelectIndices | crates/bili_sync/src/utils/ai_rename.rs:433-446 | the parsing loop selects exactly the stems the pieces name, in order |
| AiRename.SidecarTargetAsWritten | crates/bili_sync/src/utils/ai_rename.rs:312-336 | as written, a file starting with the old stem whose rest is not a main media extension is renamed to the new stem plus that rest |
| AiRename.SidecarAsWrittenRenamesMainFile | crates/bili_sync/src/utils/ai_rename.rs:312-336 | as written, EP1-Title.mp4 is renamed again to EP1-Title-Title.mp4 when the stem EP1 becomes EP1-Title |
| AiRename.SidecarTarget | crates/bili_sync/src/utils/ai_rename.rs:312-336 | the corrected rule: as written, except that a file already carrying a longer new stem is left alone |
| AiRename.SidecarKeepsMainFile | crates/bili_sync/src/utils/ai_rename.rs:312-336 | under the corrected rule the renamed main file is never renamed again |
| AiRename.SidecarRenamesKeepSuffix | crates/bili_sync/src/utils/ai_rename.rs:294-345 | every rename replaces the old stem with the new one and keeps the rest of the name |
| AiRename.RenameSidecars | crates/bili_sync/src/utils/ai_rename.rs:294-345 | a path without directory or stem is an error; otherwise the renames of the listing in order |
| AiRename.StemAndExtension | crates/bili_sync/src/utils/ai_rename.rs:452-478 | the name is the stem alone, or stem, dot and an extension without dots after a non-empty stem |
| AiRename.RenameInconsistentFile | crates/bili_sync/src/utils/ai_rename.rs:452-584 | refuses without a file name, a key or a history; on success the answer is a new stem, the path keeps the extension (mp4 by default), the request carries the history, and the sidecars are renamed to the new stem |
| DeepseekWeb.IsTokenError | crates/bili_sync/src/utils/deepseek_web.rs:64-91 | a token error exactly when the status is 401, the code is an expiry code, or the message mentions authentication in any letter case |
| DeepseekWeb.TokenErrorIgnoresCase | crates/bili_sync/src/utils/deepseek_web.rs:64-91 | lower-casing the message first never changes the verdict |
| DeepseekWeb.PowRejectionCountsAsTokenError | crates/bili_sync/src/utils/deepseek_web.rs:64-91 | the proof-of-work rejection 40301 "Invalid PoW response" is classified as an expired token through its message |
| DeepseekWeb.WrapI32 | crates/bili_sync/src/utils/deepseek_web.rs:381 | the cast keeps the low 32 bits as a signed number and leaves an i32 value unchanged |
| DeepseekWeb.TokenNotifier.constructor | crates/bili_sync/src/utils/deepseek_web.rs:94-117 | the notification flag starts cleared |
| DeepseekWeb.TokenNotifier.TokenExpiredError | crates/bili_sync/src/utils/deepseek_web.rs:94-112 | the expiry message; this call notifies exactly when it is the first since the last reset, and the flag is set |
| DeepseekWeb.TokenNotifier.ResetTokenExpiredFlag | crates/bili_sync/src/utils/deepseek_web.rs:115-117 | the next expiry notifies again |
| DeepseekWeb.NotifyOnce | crates/bili_sync/src/utils/deepseek_web.rs:94-112 | however many expiries follow one another, only the first notifies |
| DeepseekWeb.JsonError | crates/bili_sync/src/utils/deepseek_web.rs:373-390 | an API error only for a body starting with '{' without "data:", that parses with a non-zero i64 code |
| DeepseekWeb.StreamIsNeverJsonError | crates/bili_sync/src/utils/deepseek_web.rs:373 | a body that contains "data:" anywhere is always read as a stream, never as a JSON error |
| DeepseekWeb.LineData | crates/bili_sync/src/utils/deepseek_web.rs:396-410 | a line's event is the parsed non-empty payload of a "data:" line |
| DeepseekWeb.IdText | crates/bili_sync/src/utils/deepseek_web.rs:414-434 | a message id is an i64 in decimal or a string as it is, and nothing else |
| DeepseekWeb.EventMessageId | crates/bili_sync/src/utils/deepseek_web.rs:414-434 | v.response.message_id wins, then response_message_id, otherwise the id known before |
| DeepseekWeb.EventMessageIdKeeps | crates/bili_sync/src/utils/deepseek_web.rs:414-434 | an event either names its own id, which wins, or passes the previous one on |
| DeepseekWeb.FormatsExclusive | crates/bili_sync/src/utils/deepseek_web.rs:438-483 | the four event formats never overlap, so the order of the tests does not decide the text |
| DeepseekWeb.StreamSplits | crates/bili_sync/src/utils/deepseek_web.rs:393-483 | the stream's text is the text of its parts in order, and a non-data line adds nothing |
| DeepseekWeb.MessageIdConcat | crates/bili_sync/src/utils/deepseek_web.rs:393-483 | the last part that names an id decides the message id |
| DeepseekWeb.PreviewAsWritten | crates/bili_sync/src/utils/deepseek_web.rs:491 | the byte slice panics exactly when byte 200 falls inside a character and otherwise quotes a prefix |
| DeepseekWeb.PreviewAsWrittenPanics | crates/bili_sync/src/utils/deepseek_web.rs:490-492 | a reply of one letter and at least 67 Chinese characters has no text and panics when quoted |
| DeepseekWeb.Preview | crates/bili_sync/src/utils/deepseek_web.rs:491 | the intended preview is a whole-character prefix of at most 200 bytes |
| DeepseekWeb.PreviewAgrees | crates/bili_sync/src/utils/deepseek_web.rs:491 | wherever the slice does not panic the intended preview is the same text; a short reply is quoted whole |
| DeepseekWeb.AppendFragments | crates/bili_sync/src/utils/deepseek_web.rs:445-452 | the fragment loop appends the contents of the fragments in order |
| DeepseekWeb.AppendBatch | crates/bili_sync/src/utils/deepseek_web.rs:438-456 | the batch loop appends the text of the items in order |
| DeepseekWeb.AppendEvent | crates/bili_sync/src/utils/deepseek_web.rs:438-483 | one event appends exactly its text |
| DeepseekWeb.ReadStream | crates/bili_sync/src/utils/deepseek_web.rs:393-483 | the line loop produces the stream's text and last message id |
| DeepseekWeb.ParseSseResponse | crates/bili_sync/src/utils/deepseek_web.rs:370-498 | a JSON error is an error, the expiry message (notifying once) when it is a token error; otherwise the stream's text and message id, and an empty text is an error quoting the body |
| DeepseekWeb.SendTarget | crates/bili_sync/src/utils/deepseek_web.rs:523-527 | the given conversation and its parent, or a new conversation answering nothing |
| DeepseekWeb.GenerateRaw | crates/bili_sync/src/utils/deepseek_web.rs:511-539 | succeeds exactly when the client, the target and the send succeed; the reply text is returned and its message id becomes the conversation's parent |
| DeepseekWeb.ParentIdSent | crates/bili_sync/src/utils/deepseek_web.rs:310-311 | the parent goes out as a number exactly when it is given and parses as a u64, otherwise as null |
| DeepseekWeb.ChatPayload | crates/bili_sync/src/utils/deepseek_web.rs:313-321 | exactly the seven request fields: the conversation, the parent as sent, the prompt, thinking and search off |
| DeepseekWeb.NumericParentIdSent | crates/bili_sync/src/utils/deepseek_web.rs:310-311 | a numeric message id is sent back as that very number |
| DeepseekWeb.ConversationContinues | crates/bili_sync/src/utils/deepseek_web.rs:511-539 | handing the returned conversation back continues it: same conversation, and the next request's parent is the reply's message id after the u64 parse (null when it is not a u64 numeral) |
| DeepseekWeb.Generate | crates/bili_sync/src/utils/deepseek_web.rs:551-595 | the raw reply cleaned as AI renaming cleans a name; an empty name is an error and the conversation is then not handed back |
| VideoSource.DigitsLess | crates/bili_sync/src/adapter/favorite.rs:55-57 | digit strings of one length compare like the numbers they spell |
| VideoSource.FormatOrder | crates/bili_sync/src/adapter/favorite.rs:55-57 | comparing formatted times as strings is comparing the times, so the string cut-off is chronological |
| VideoSource.FormatLength | crates/bili_sync/src/adapter/favorite.rs:56 | a valid time formats to 19 characters |
| VideoSource.FavoriteUpdateLatestRowAt | crates/bili_sync/src/adapter/favorite.rs:34-40 | the change sets the progress mark of exactly the row with the list's id |
| VideoSource.SubmissionUpdateLatestRowAt | crates/bili_sync/src/adapter/submission.rs:37-43 | the change sets the progress mark of exactly the row with the source's id |
| VideoSource.VideoModel.constructor | crates/bili_sync/src/adapter/mod.rs:50-53 | a fresh video model has no relation column set |
| VideoSource.FavoriteSetRelationId | crates/bili_sync/src/adapter/favorite.rs:18-24 | the saved video belongs to the list by the list's filter; no other column changes |
| VideoSource.SubmissionSetRelationId | crates/bili_sync/src/adapter/submission.rs:19-27 | the video belongs to the uploader both as a submission and as the source of a co-authored one; no other column changes |
| VideoSource.FavoriteShouldTake | crates/bili_sync/src/adapter/favorite.rs:42-58 | everything while deleted videos are scanned for or on a first scan, otherwise exactly the videos whose formatted release time is after the mark |
| VideoSource.FavoriteTakesNewer | crates/bili_sync/src/adapter/favorite.rs:42-58 | with progress from a real scan, a video is taken exactly when released after that scan's newest video |
| VideoSource.FavoriteTakesPrefix | crates/bili_sync/src/adapter/favorite.rs:42-58 | on a newest-first list the taken videos form a prefix, so the scan may stop at the first one not taken |
| VideoSource.SubmissionShouldTake | crates/bili_sync/src/adapter/submission.rs:45-105 | a resumed uploader takes everything; chosen videos on a first scan are all taken; without incremental fetching or a choice everything is taken; otherwise exactly the videos released after the mark |
| VideoSource.SubmissionTakesNewer | crates/bili_sync/src/adapter/submission.rs:45-105 | with incremental fetching and nothing to resume, a video is taken exactly when newer than the last scan's newest |
| VideoSource.StringsOf | crates/bili_sync/src/adapter/submission.rs:173-182 | the strings of an array exactly when every item is a string, in order |
| VideoSource.GetSelectedVideos | crates/bili_sync/src/adapter/submission.rs:173-182 | the chosen ids exactly when the column holds a JSON array of strings, item by item |
| VideoSource.FavoriteSourceKey | crates/bili_sync/src/adapter/favorite.rs:164-166 | a favorite list's key starts with "favorite_" |
| VideoSource.SubmissionSourceKey | crates/bili_sync/src/adapter/submission.rs:264-266 | a submission source's key starts with "submission_" |
| VideoSource.IntToStringInjective | crates/bili_sync/src/adapter/favorite.rs:164-166 | different ids give different keys |
| VideoSource.SourceKeysDistinct | crates/bili_sync/src/adapter/submission.rs:264-266 | two sources share a key only when they are the same kind with the same id |
| Show.CollectAll | bilibili-api-main/bilibili_api/show.py:141-155 | succeeds exactly when every element does, with one value per element in order; otherwise the first failing element's error |
| Show.CollectFirstError | bilibili-api-main/bilibili_api/show.py:141-155 | once every earlier element succeeds and one fails, the whole loop fails with its error |
| Show.TicketFrom | bilibili-api-main/bilibili_api/show.py:145-154 | a ticket exactly when the element is an object with all five keys, which it takes in order |
| Show.SessionHead | bilibili-api-main/bilibili_api/show.py:141-145 | a session head needs an object with id, start_time, name and a ticket list, and starts with no tickets |
| Show.GetAvailableSessions | bilibili-api-main/bilibili_api/show.py:129-156 | the loops build the reference list of sessions |
| Show.SessionsMirrorCatalogue | bilibili-api-main/bilibili_api/show.py:129-156 | one session per screen with its id, start time and name, and one ticket per ticket-list element with its fields |
| Show.BuyerInfoFrom | bilibili-api-main/bilibili_api/show.py:63-112 | a buyer exactly from an object with every required key and no unknown one; otherwise a TypeError |
| Show.BuyerDict | bilibili-api-main/bilibili_api/show.py:63-112 | the record holds every field under its declared name |
| Show.BuyerDictRoundTrip | bilibili-api-main/bilibili_api/show.py:63-112 | the record an order sends rebuilds the same buyer |
| Show.AllBuyerInfo | bilibili-api-main/bilibili_api/show.py:159-185 | without the credential an error before any request; otherwise one buyer per element of the response's list |
| Show.GenerateClickPosition | bilibili-api-main/bilibili_api/show.py:188-202 | the click lies in the drawn ranges, starts at the clock, and ends 5 to 10 seconds later |
| Show.EveryPlausibleClickDrawn | bilibili-api-main/bilibili_api/show.py:188-202 | every plausible click is one the generator can draw |
| Show.PyIn | bilibili-api-main/bilibili_api/show.py:255-256 | on a string, membership is substring search |
| Show.RequiresId | bilibili-api-main/bilibili_api/show.py:254-258 | true exactly when some detail asks for an identity document and all before it do not; false exactly when none does |
| Show.FindBaseInfo | bilibili-api-main/bilibili_api/show.py:250-253 | the element found is base_info and every element before it has a module that is not; none exactly when every element has a module and none is base_info; a missing module is an error only when no base_info element comes before it |
| Show.Header | bilibili-api-main/bilibili_api/show.py:236-247 | the header carries no buyer fields |
| Show.HeaderOrdersOneTicket | bilibili-api-main/bilibili_api/show.py:236-247 | the header orders one ticket of the chosen session at the ticket's price with the token |
| Show.OrderFacts | bilibili-api-main/bilibili_api/show.py:235-258 | a payload needs the credential, the token and the scanned details, in that order; without the credential the result is the no-sessdata error, and with it a missing token is the token's error |
| Show.TokenRequest | bilibili-api-main/bilibili_api/show.py:267-285 | without the credential the no-sessdata error; otherwise form data with exactly count (the string "1"), order type, project, session and ticket |
| Show.TokenRequestMatchesHeader | bilibili-api-main/bilibili_api/show.py:235-246 | the token request names the same order type, project, session and ticket as the order header |
| Show.WithBuyer | bilibili-api-main/bilibili_api/show.py:257-265 | the header is kept and gains the identity record when needed, otherwise name and phone |
| Show.CreateOrderPayload | bilibili-api-main/bilibili_api/show.py:228-265 | the method builds the reference payload |
| Show.PayloadOrdersOneTicket | bilibili-api-main/bilibili_api/show.py:228-265 | every payload names one ticket of the chosen session, bought once, at the ticket's price, with the token |
| Show.PayloadBuyerShape | bilibili-api-main/bilibili_api/show.py:228-265 | the identity record exactly when some detail asks for a document, otherwise name and phone, never both |
| Show.PhraseRequiresId | bilibili-api-main/bilibili_api/show.py:255-256 | a detail containing either phrase requires a document |
| Show.MissingBaseInfoFails | bilibili-api-main/bilibili_api/show.py:249-254 | without a base_info module the details are looked up on the module list, which fails |
| Geetest.ApiName | bilibili-api-main/bilibili_api/utils/geetest.py:22-32 | the login captcha comes from the "password" API and only it does |
| Geetest.Geetest.constructor | bilibili-api-main/bilibili_api/utils/geetest.py:135-143 | empty captcha id and challenge, the initial token, empty answers, no server, not done, no type |
| Geetest.Geetest.GenerateTest | bilibili-api-main/bilibili_api/utils/geetest.py:145-165 | id, challenge and token are stored in turn, the first missing one stopping the rest; once all are read the answer is cleared, the captcha is not done and its type recorded; a failure leaves the rest alone |
| Geetest.Geetest.GetTestTypeAsWritten | bilibili-api-main/bilibili_api/utils/geetest.py:167-185 | as written, the recorded type (possibly none) whenever the token is not None |
| Geetest.Geetest.GetTestType | bilibili-api-main/bilibili_api/utils/geetest.py:167-185 | the corrected check: the type of the last captcha generated, an error before any |
| Geetest.FreshHelperCountsAsGenerated | bilibili-api-main/bilibili_api/utils/geetest.py:178-185 | on a fresh helper the check as written passes and returns no type, where the corrected one raises |
| Geetest.Geetest.GetResult | bilibili-api-main/bilibili_api/utils/geetest.py:205-221 | the captcha with its answer exactly once it is done, the fixed error before |
| Geetest.Geetest.CompleteTest | bilibili-api-main/bilibili_api/utils/geetest.py:223-233 | the answer is stored, the captcha is done, and the result is then available with that answer |
| Geetest.Geetest.UrlHandler | bilibili-api-main/bilibili_api/utils/geetest.py:235-279 | a result path records the answer its parts carry, marks done and serves the done page; the empty path serves the captcha page; any other path serves nothing and changes nothing |
| Geetest.Geetest.StartGeetestServer | bilibili-api-main/bilibili_api/utils/geetest.py:281-290 | an error exactly while a server runs; otherwise the server listens at the address |
| Geetest.Geetest.GetGeetestServerUrl | bilibili-api-main/bilibili_api/utils/geetest.py:292-301 | the server's address exactly when one runs, otherwise the exception object is returned |
| Geetest.Geetest.CloseGeetestServer | bilibili-api-main/bilibili_api/utils/geetest.py:303-308 | the server is stopped; without one the call fails on the missing thread |
| Geetest.EncodeBar | bilibili-api-main/bilibili_api/utils/geetest.py:244-245 | the encoding leaves no '\|' and adds no '&' |
| Geetest.DecodeEncodeBar | bilibili-api-main/bilibili_api/utils/geetest.py:244-245 | decoding undoes the encoding for text without '%' |
| Geetest.ResultPathRoundTrip | bilibili-api-main/bilibili_api/utils/geetest.py:235-245 | the answer the page sends is the answer recorded, whatever was recorded before |
| Geetest.ResultPathAlwaysHasAPart | bilibili-api-main/bilibili_api/utils/geetest.py:238-246 | any result path, even one with no answer, marks the captcha done |

## Left out

- Network I/O is not modelled. HTTP replies are parameters of the operations that read them: the live API, playlist and segment fetches, file downloads, the chat and DeepSeek services, the notification senders, aria2's JSON-RPC and the Python `Api(...).result` calls. Sending the requests is not modelled.
- Process control (spawning, killing and polling ffmpeg, ffprobe and aria2c) is reduced to inputs: whether a spawn succeeded and what a poll reports. What the processes do is outside the model.
- Concurrency is not modelled: tokio tasks, locks, `live/monitor.rs`, `task/live_monitor.rs`, the WebSocket manager and the spawned segment fetches. Atomic counters are plain fields, and a round of concurrent fetches is a sequence of outcomes.
- Floating point is replaced by exact arithmetic, because Dafny has no IEEE doubles:
  - segment and recording durations are integer milliseconds;
  - `avg_bps` is an exact integer quotient, saturated at `u64::MAX`;
  - aria2's `f64::ceil` is an integer ceiling;
  - the URL pool's success rate and score are exact reals.
- Wall-clock time and randomness are parameters: `Instant`/`chrono` readings, URL expiry times and the three `randint` draws of `generate_clickPosition`.
- Release times are compared as already-formatted Beijing-time fields with four-digit years. Time-zone conversion is not modelled.
- `cleanup_old_logs` in `utils/file_logger.rs` is not modelled, because it works on file modification dates taken from the file system.
- Foreign libraries whose behaviour is not part of the repository are parameters:
  - zlib decompression and the decoding of a packet body into JSON;
  - `serde_json` parsing, and Python's `json.dumps` and `str`;
  - `filenamify`;
  - the DeepSeek proof-of-work (Keccak, WASM) and the construction of its HTTP client.
- Text is simplified in two ways. `to_lowercase` maps ASCII letters only, since Unicode case tables are out of scope. `trim` uses the Unicode White_Space set.
- Python exceptions are modelled by their kind (`KeyError` with its key, `TypeError`, the credential exception). Their message texts are not kept. Dictionaries are maps, so the payload's key order is not modelled.
- A credential is modelled as whether it carries a session cookie. `network.py` is not part of this model.
- The geetest `ServerThread`/`DocServer` is not modelled. Starting and closing the server is a change of the `Geetest` object's server field, and requests reach the object through `UrlHandler`.
- The database is not modelled: the migrations, entities, SQL statements in `config/manager.rs` and query building in `adapter/mod.rs`. Stored items are a map from key to JSON value.
- `Geetest.get_info` and `Geetest.has_done` only read fields, so they have no member of their own. `Geetest.Geetest.GetResult` covers the same fields.
- `LiveRecorder::get_segments` always returns an empty list and `LiveRecorder::output_path` always returns the output path. They are constant accessors and have no member of their own.
- `restart_with_new_url` has no member of its own. It is the stop-then-start step inside `Recorder.LiveRecorder.SeamlessSwitch`.
- `OrderTicket.get_token` and `OrderTicket.create_order` send network requests, which are not modelled. What they send is: `Show.TokenRequest` for the token request, `Show.OrderFacts` and `Show.CreateOrderPayload` for the order.
- `is_success` of the WeCom and Server酱 replies is the pair of predicates `WecomAccepted` and `ServerChanAccepted` in `Notification`, used by `Notification.Deliver`. They define the check and have no contract of their own.
- FetchWithFallback: in `Downloader`, the URL list in its error context is written with plain quotes. How `{:?}` escapes quotes and backslashes inside a URL is not modelled. The error text is the `{:#}` form, context then cause, rather than anyhow's chain of errors.
- HandleBinaryMessage: in `WsClient.Connection`, the recursion into decompressed batches is bounded by a `depth` parameter, and at depth 0 a compressed body makes the call fail. The source recurses with no bound, so its behaviour is the model's for any depth that exceeds the nesting of the input. Termination of the unbounded recursion is not captured.
- ParseCompressedPackets: in `WsClient.Connection`, carries the same `depth` bound as `HandleBinaryMessage`, for the same reason.
- ExtinfMillis: in `M3u8Parser`, reads plain decimal seconds only. Rust's `f64` parse also accepts an exponent ("1e1"), a minus sign, "inf" and "nan"; the model reads those as unreadable, that is 0.
- Items: in `Json`, only a list can be iterated. Python's `for` also runs over a dict's keys or a string's characters, so an empty dict or string there loops zero times where the model reports a type error. A non-empty one fails at the next subscript in both.
- SortVideosDescending: in `Notification`, states order and permutation but not stability. Rust's `sort_by` keeps videos with equal keys in their input order; the model's insertion sort does too, but no lemma states it.
- CleanupBySize: in `SegmentManager.Manager`, whether a segment file can be removed is a fixed answer per path. If two records shared a path, the source's second removal would fail because the file is gone; the model does not capture that.
- ParsePlaylist: in `M3u8Parser.Parser`, does not model the `u64` overflow of `last_sequence + 1`, because a live room never reaches 2^64 segments. Sequence numbers are unbounded naturals.

## Findings

| source | as written | input that shows it | evidently intended | confidence | as-written member | corrected member |
|---|---|---|---|---|---|---|
| crates/bili_sync/src/live/ws_client.rs:423-436 | the body is sliced as `&data[header_len..]` without checking `header_len` against the frame length | a 16-byte frame whose header declares a 17-byte header: the slice panics | a frame whose declared header overruns it is rejected, like a short frame | not executed | WsClient.OverlongHeaderPanics | WsClient.Connection.HandleBinaryMessage |
| crates/bili_sync/src/live/ws_client.rs:504-521 | the batch loop moves the cursor to `packet_start + packet_len` | a batch whose first packet declares length 0: the cursor never advances and the loop never ends | the loop stops, or skips, when a packet declares a length that cannot advance it | not executed | WsClient.ZeroLengthStallsAsWritten | WsClient.CheckedStepAdvances |
| crates/bili_sync/src/aria2_downloader.rs:646-707 | the instance's load is incremented before `add_download_task(...).await?`, and the `?` returns without decrementing it | any download whose `aria2.addUri` call fails | every path out of the download gives the load back | not executed | Aria2.AsWrittenLeaksLoad | Aria2.FetchBalancesLoad |
| crates/bili_sync/src/utils/notification.rs:309-319 | the 3900 limit is checked against `content.len()`, which counts UTF-8 bytes, but the cut keeps `chars().take(3850)`, which counts characters | 1301 Chinese characters (3903 bytes) pass the guard, nothing is cut, and the truncation notice is still appended; 4001 Chinese characters against the 4000 markdown limit come out at 11879 bytes | the cut keeps at most the byte budget, so a truncated message fits the limit | not executed | Notification.TruncateAsWrittenMisfires | Notification.TruncateFits |
| crates/bili_sync/src/utils/ai_rename.rs:312-336 | a sidecar is any file in the directory whose name starts with the old stem, and the freshly renamed main file is one of them when the new stem extends the old one | EP1.mp4 renamed to EP1-Title.mp4 is then renamed again to EP1-Title-Title.mp4 | only files other than the renamed main file are renamed | not executed | AiRename.SidecarAsWrittenRenamesMainFile | AiRename.SidecarKeepsMainFile |
| crates/bili_sync/src/utils/notification.rs:464-466 | the scan report's 30000 limit is checked against `clean_content.len()`, which counts UTF-8 bytes, but the cut keeps `chars().take(29900)`, which counts characters | 10001 Chinese characters (30003 bytes) pass the guard, nothing is cut, and with the notice the message is 30032 bytes | the cut keeps at most the byte budget, so the scan message fits 30000 bytes | not executed | Notification.ScanCutAsWrittenOverflows | Notification.ScanMessageFits |
| crates/bili_sync/src/utils/deepseek_web.rs:491 | the error preview slices `&body[..body.len().min(200)]` by bytes | a reply body of "a" followed by 67 or more Chinese characters: byte 200 falls inside a character and the slice panics | the preview keeps at most 200 bytes, cut on a character boundary | not executed | DeepseekWeb.PreviewAsWrittenPanics | DeepseekWeb.PreviewAgrees |
| bilibili-api-main/bilibili_api/utils/geetest.py:178-185 | `test_generated` tests `self.key != None`, but `__init__` sets the key to `""` | a fresh `Geetest` object: `get_test_type()` returns `None` instead of raising "not generated" | no test counts as generated before `generate_test` sets a key | not executed | Geetest.FreshHelperCountsAsGenerated | Geetest.Geetest.GetTestType |
