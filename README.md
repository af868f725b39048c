# Slice-parsing pipeline of legilimens, in Dafny

legilimens is a Qt desktop tool that opens a media file, lists its video and audio streams,
and scans its packets ("slices") so they can be shown in a tree. This project models the
non-UI core of that pipeline and proves what it guarantees:

- **the parser worker** (`MediaParserThread`, module `MediaParser`). It opens the container,
  reads every packet and turns each one into a `SliceInfo`. It reports percentage progress,
  hands the slices on in batches of 100, flushes the rest after the loop, and reports
  completion unless a stop was requested.
- **the slice processor** (`SliceProcessor`, module `SliceProcessing`). It is a FIFO queue of
  slices, drained by the `process()` loop in batches of at most `batchSize` (default 50).
- **the slice tree model** (`SliceTreeModel`, module `SliceTree`). It accumulates slices and
  rebuilds a tree from them:
  - a root with the categories Video, Audio and Other;
  - one node per stream index, under the category of that stream's first slice;
  - one node per slice under its stream;
  - eight property rows under each slice.
- **the media file manager** (`MediaFileManager`, module `MediaFiles`). It opens a file with the
  container library and picks the first video stream and the first audio stream. It lists every
  video and audio stream with its codec parameters rendered as text, and releases everything on
  close.
- **the application's file model** (`Model`, module `FileModel`). It keeps the path and size of
  the open file.

Two support modules hold the shared pieces:

- `Common` holds the fixed-width integer types and their wrap-around. It also holds C's
  truncating division, and decimal and hexadecimal rendering, each with a parser that reads the
  text back.
- `Container` holds the container library as the program sees it:
  - a format context is a sequence of per-stream codec parameters and a duration;
  - opening a path yields an outcome given from outside;
  - reading packets yields a sequence of read results given from outside.

Each class keeps the source's fields, and its methods update them in place. Each method is
proved against a function of the inputs and the old state:

- `StartParsingTrace` and `ScanEvents` for the parser;
- `Chunks` and `DrainEvents` for the processor;
- `BuildTree` and `GroupFold` for the tree;
- `OpenEvents`, `VideoInfos`, `AudioInfos` and `FirstOfKind` for the file manager;
- `Open` and `Close` for the file model.

The properties the source promises are proved as lemmas about those functions.

Three points about the code that are easy to get wrong:

- **Progress values are neither clamped nor monotone.** `src/model/mediaparserthread.cpp:106`
  skips only a value equal to the last one emitted, or one outside [0, 100]. A packet with a
  smaller pts therefore produces a smaller value. `MediaParser.ScanEventsProgress` proves what the
  code does guarantee.
- **A stopped scan still flushes its pending slices** (`src/model/mediaparserthread.cpp:127-130`).
  Only the packet read in the iteration that sees the stop is dropped.
- **The file manager follows its implementation file, not its header.** `mediafilemanager.h`
  does not declare several members that `mediafilemanager.cpp` defines and uses:
  - the stream-information lists, `extractAllStreamInfo` and the name helpers;
  - the `streamsInfoUpdated` signal.

  The model follows the `.cpp`.

## Model

| member | source | states |
|---|---|---|
| Container.FramesRead | src/model/mediaparserthread.cpp:69 | the scan loop runs exactly while `av_read_frame` delivers packets: every result before the first failure is a packet, and the one after it is a failure |
| Container.PacketsRead | src/model/mediaparserthread.cpp:69 | the packets the loop sees are the delivered packets in read order, one per successful call |
| MediaParser.StreamTypeNames | src/model/mediaparserthread.cpp:250-264 | the stream type is one of five names; it is "unknown" without a context or outside [0, nb_streams); "video"/"audio" exactly for video/audio streams (both directions) |
| MediaParser.CreateSliceInfo | src/model/mediaparserthread.cpp:234-248 | a slice carries the packet's index, pts, dts, duration, pos and size; it is a key frame iff the key flag bit is set; its type is the stream's type |
| MediaParser.ProgressPercentExact | src/model/mediaparserthread.cpp:105 | for a positive pts with pts * 100 within int64 and a quotient within int32, the truncating division cast to int is pts * 100 / duration |
| MediaParser.ProgressWithinDuration | src/model/mediaparserthread.cpp:102-106 | a packet with 0 < pts <= duration and pts * 100 within int64 yields a percentage in [0, 100] (past that bound the wrapped product can give a negative value) |
| MediaParser.ProgressDeduplicates | src/model/mediaparserthread.cpp:102-111 | a progress signal needs a positive duration and pts and carries a value in [0, 100] other than the last one; the same packet seen again right after emits nothing |
| MediaParser.SlicesConverted | src/model/mediaparserthread.cpp:69-79 | every packet read becomes a slice, except that the packet read just before a stop is seen is dropped; fewer slices than packets iff a stop is seen inside the loop |
| MediaParser.ScanFoldBatches | src/model/mediaparserthread.cpp:76-120 | after any number of iterations, the batches emitted and then the pending list are exactly the slices so far in read order; every in-loop batch holds exactly 100 and fewer than 100 are pending |
| MediaParser.ScanFoldProgress | src/model/mediaparserthread.cpp:101-111 | the in-loop progress values are in [0, 100], never equal to the value just before them, each computed from some packet; the remembered last value is the last one emitted, or -1 |
| MediaParser.ScanFoldKinds | src/model/mediaparserthread.cpp:69-124 | the loop emits only slice batches and progress values |
| MediaParser.ScanDeliversEveryPacket | src/model/mediaparserthread.cpp:69-130 | the concatenated batches, including the flush, are the slices of the converted packets in read order, with no loss, duplication or reordering; there are ceil(k/100) batches, all of 100 but the last, which holds 1 to 100 |
| MediaParser.ScanEventsProgress | src/model/mediaparserthread.cpp:101-130 | all progress values of a scan are in [0, 100], none repeats its predecessor, each is the percentage of a converted packet with positive pts; a non-positive duration yields none |
| MediaParser.ScanEventsKinds | src/model/mediaparserthread.cpp:69-130 | the scan up to its flush emits only batches and progress values, no error and no completion |
| MediaParser.ReadFailureEndsLikeEndOfFile | src/model/mediaparserthread.cpp:69 | a failing read ends the scan exactly as end of file does: cutting the results at the first failure changes no packet, no stop decision and no signal |
| MediaParser.StartParsingTrace | src/model/mediaparserthread.cpp:46-157 | parsingFinished is emitted iff the path is set, the open succeeds and no stop is seen after the loop, and then it is emitted once, last, right after progress 100; a failed open emits only errors; a successful one emits no error |
| MediaParser.ScanPackets | src/model/mediaparserthread.cpp:60-130 | the scan loop and the flush emit exactly ScanEvents, that is, the fold of the loop body over the converted packets, followed by the non-empty pending list |
| MediaParser.ReportProgress | src/model/mediaparserthread.cpp:102-111 | the progress part of the loop body yields exactly the value EmittedProgress gives for the packet's pts, duration and last value, or nothing |
| MediaParser.ConvertPacket | src/model/mediaparserthread.cpp:74-121 | one loop iteration changes the pending list, the last progress and the signals exactly as ScanStep does for the packet's slice and percentage |
| MediaParser.FinishedTail | src/model/mediaparserthread.cpp:126-155 | after a scan that emits only slices and progress, finished is emitted exactly when not stopped, once, as the last signal right after a final 100, and no error is emitted |
| MediaParser.MediaParserThread.constructor | src/model/mediaparserthread.cpp:14-21 | a new worker has no path, no stop request and no open context |
| MediaParser.MediaParserThread.SetFilePath | src/model/mediaparserthread.cpp:28-32 | sets the path and nothing else |
| MediaParser.MediaParserThread.RequestStop | src/model/mediaparserthread.cpp:34-38 | sets the stop flag and nothing else |
| MediaParser.MediaParserThread.IsStopped | src/model/mediaparserthread.cpp:40-44 | returns the stop flag |
| MediaParser.MediaParserThread.OpenFile | src/model/mediaparserthread.cpp:159-187 | succeeds iff the path is set and both library calls succeed; each failure emits its error; a stream-information failure leaves the context open |
| MediaParser.MediaParserThread.CloseFile | src/model/mediaparserthread.cpp:226-232 | afterwards no context is open; path and stop flag unchanged |
| MediaParser.MediaParserThread.StartParsing | src/model/mediaparserthread.cpp:46-157 | emits StartParsingTrace; clears the stop flag first; closes the context after every scan that reached the loop |
| SliceProcessing.ChunksPartition | src/model/sliceprocessor.cpp:97-104 | draining in batches loses, duplicates and reorders nothing: the batches concatenate to the queue, all hold batchSize but the last, which holds 1 to batchSize, and there are ceil(n / batchSize) of them |
| SliceProcessing.DrainEventsShape | src/model/sliceprocessor.cpp:107-120 | draining emits each batch in order and processingFinished exactly once, last, when there was anything to drain |
| SliceProcessing.SliceProcessor.constructor | src/model/sliceprocessor.cpp:6-12 | a new processor is not running, has batch size 50 and holds no slices |
| SliceProcessing.SliceProcessor.Start | src/model/sliceprocessor.cpp:20-25 | sets running, nothing else changes |
| SliceProcessing.SliceProcessor.Stop | src/model/sliceprocessor.cpp:27-33 | clears running, nothing else changes; queued slices stay to be drained |
| SliceProcessing.SliceProcessor.QueueSlices | src/model/sliceprocessor.cpp:35-52 | appends the slices to the queue's tail in order (an empty list changes nothing) and keeps the invariant: processed slices followed by the queue are everything queued since the last clear |
| SliceProcessing.SliceProcessor.ClearSlices | src/model/sliceprocessor.cpp:54-60 | empties the queue and the processed list; running and batch size unchanged |
| SliceProcessing.SliceProcessor.IsRunning | src/model/sliceprocessor.cpp:62-65 | returns the running flag |
| SliceProcessing.SliceProcessor.SetBatchSize | src/model/sliceprocessor.cpp:67-74 | takes only a positive size; otherwise nothing changes |
| SliceProcessing.SliceProcessor.ProcessStep | src/model/sliceprocessor.cpp:80-121 | with an empty queue it waits if running and exits otherwise; else it moves the first min(batchSize, n) slices, in order, into one emitted batch and onto the processed list, and emits processingFinished iff the queue is now empty; FIFO invariant kept |
| SliceProcessing.SliceProcessor.TakeBatch | src/model/sliceprocessor.cpp:96-103 | the batch loop dequeues exactly the first `count` slices, in queue order, into the batch and appends the same slices to the processed list |
| SliceProcessing.SliceProcessor.Process | src/model/sliceprocessor.cpp:76-124 | with no other thread intervening, the loop emits DrainEvents of the queue's batches, moves the whole queue onto the processed list, then waits if running and exits if not |
| SliceTree.AppendChildThenChild | src/model/slicetreemodel.cpp:20-31 | a child appended to an item is found at the next row, every other row finds what it found before, and the item's own name and value are kept |
| SliceTree.ChildOfRow | src/model/slicetreemodel.cpp:52-58 | row() and child() are inverse: the parent's child at an item's row is that item |
| SliceTree.SetDataThenData | src/model/slicetreemodel.cpp:43-69 | after setData, data(0) and data(1) are the new name and value, other columns are empty, and the children are kept |
| SliceTree.FormatTimestampRoundTrip | src/model/slicetreemodel.cpp:328-335 | a formatted timestamp reads back as itself; "N/A" (negative timestamps) reads back as nothing |
| SliceTree.SliceItemShape | src/model/slicetreemodel.cpp:305-326 | every slice node has exactly eight leaf rows with fixed names in fixed order, none with an empty value |
| SliceTree.SliceItemNumbers | src/model/slicetreemodel.cpp:307-311 | the stream-index and duration rows read back as the slice's fields |
| SliceTree.SliceItemTimestamps | src/model/slicetreemodel.cpp:309-310 | the PTS and DTS rows read back as the timestamps, or as nothing when negative |
| SliceTree.SliceItemFlags | src/model/slicetreemodel.cpp:308-313 | the type row is the stream type or "N/A" when empty; the key-frame row is "Yes" iff key frame, as is the node's own value "Key Frame" |
| SliceTree.SliceItemSize | src/model/slicetreemodel.cpp:312 | the size row is the decimal size followed by " bytes", and the number reads back |
| SliceTree.SliceItemPosition | src/model/slicetreemodel.cpp:314 | the position row is "0x" followed by the position in hexadecimal, which reads back |
| SliceTree.Category | src/model/slicetreemodel.cpp:246-255 | every slice falls in exactly one of the three categories |
| SliceTree.CategoryValueRoundTrip | src/model/slicetreemodel.cpp:275-288 | a category shows "None" iff its count is 0, and otherwise a number that reads back as the count |
| SliceTree.CountsSum | src/model/slicetreemodel.cpp:242-256 | the three counters add up to the number of slices |
| SliceTree.CountAppend | src/model/slicetreemodel.cpp:187-200 | counts of an appended list are the sums of the counts of its parts |
| SliceTree.FirstOfSpec | src/model/slicetreemodel.cpp:258-262 | a stream index is registered iff some slice has it, and its first slice is the earliest one with that index |
| SliceTree.MembersSpec | src/model/slicetreemodel.cpp:264-268 | a stream node's slices are exactly the slices with its index |
| SliceTree.StreamOrderSpec | src/model/slicetreemodel.cpp:257-262 | a category lists exactly the streams whose first slice lies in it, each once, in order of first appearance |
| SliceTree.StreamPartition | src/model/slicetreemodel.cpp:243-268 | every stream index that occurs gets a node in exactly the category of its first slice, and no other index gets one |
| SliceTree.GroupStep | src/model/slicetreemodel.cpp:243-272 | one loop iteration keeps the loop state well formed: three categories, and every map entry points at an existing stream node |
| SliceTree.GroupFoldMatches | src/model/slicetreemodel.cpp:243-272 | after the loop over any list, the counters are the counts, the map locates exactly the streams seen, and each category holds its streams' nodes in order of first appearance, each with its slices in order |
| SliceTree.GroupStepMatches | src/model/slicetreemodel.cpp:243-272 | one loop iteration extends that correspondence by one slice |
| SliceTree.GroupFoldTree | src/model/slicetreemodel.cpp:238-288 | the root assembled from the loop state and the category values is the declared tree BuildTree |
| SliceTree.SliceTreeModel.constructor | src/model/slicetreemodel.cpp:72-80 | a new model shows only the placeholder row and holds no slices, streams or counts |
| SliceTree.SliceTreeModel.SetupModelData | src/model/slicetreemodel.cpp:298-303 | appends the "No slices available" row to the root, nothing else |
| SliceTree.SliceTreeModel.UpdateSliceData | src/model/slicetreemodel.cpp:175-185 | the slices replace the accumulated ones and the tree shown is the tree of those slices |
| SliceTree.SliceTreeModel.AppendSliceData | src/model/slicetreemodel.cpp:187-200 | an empty list changes nothing; otherwise the accumulated list becomes old ++ new and the tree is that list's tree |
| SliceTree.SliceTreeModel.ClearSliceData | src/model/slicetreemodel.cpp:202-216 | back to the placeholder, with no slices, no streams and zero counters |
| SliceTree.SliceTreeModel.GetSliceCount | src/model/slicetreemodel.cpp:218-221 | the number of accumulated slices, always equal to the sum of the three category counters |
| SliceTree.SliceTreeModel.RebuildTreeFromSlices | src/model/slicetreemodel.cpp:223-296 | the tree shown becomes BuildTree of the accumulated slices, the counters their counts, and the stream map exactly locates their streams |
| SliceTree.SliceTreeModel.AddSlice | src/model/slicetreemodel.cpp:243-272 | one iteration of the rebuild loop performs GroupStep on the loop state |
| SliceTree.SliceTreeModel.CountSlice | src/model/slicetreemodel.cpp:245-255 | the slice's category is the one its stream type names ("video", "audio", anything else), and only that category's counter goes up by one |
| SliceTree.GroupStepCounts | src/model/slicetreemodel.cpp:245-255 | a loop step adds one to the counter of the slice's category and leaves the other two |
| SliceTree.SliceTreeModel.ShowCategories | src/model/slicetreemodel.cpp:274-288 | each category item shows its counter, or "None" for a zero counter |
| SliceTree.SliceTreeModel.SetCategoryValue | src/model/slicetreemodel.cpp:281 | setData on one category item changes only its value |
| MediaFiles.ColorRangeNameRoundTrip | src/model/mediafilemanager.cpp:316-323 | the MPEG and JPEG ranges get distinct names that read back as themselves; everything else, and only that, is "unknown" |
| MediaFiles.FieldOrderNameRoundTrip | src/model/mediafilemanager.cpp:349-359 | the five field orders get distinct names that read back as themselves; everything else, and only that, is "unknown" |
| MediaFiles.LevelNameRoundTrip | src/model/mediafilemanager.cpp:367-373 | a level name reads back as the level, and "unknown" (the unknown level) as nothing |
| MediaFiles.AspectRatioRoundTrip | src/model/mediafilemanager.cpp:375-381 | "num:den" reads back as numerator and denominator; "unknown" (den = 0) as nothing |
| MediaFiles.StreamInfoNames | src/model/mediafilemanager.cpp:224-262 | the video and audio entries of one stream carry the same codec name and profile; the codec name is the decoder table's name or "unknown"; a missing pixel format reads "unknown" while a missing sample format reads as the empty string |
| MediaFiles.ChannelLayoutText | src/model/mediafilemanager.cpp:267-269 | the layout text is a prefix of the description shorter than the 256-byte buffer, and the whole description when it fits |
| MediaFiles.StreamKindsAgree | src/model/mediafilemanager.cpp:146-160 | isVideoStream/isAudioStream hold exactly when the parser names the stream "video"/"audio", and never both |
| MediaFiles.ExtractVideoStreamInfo | src/model/mediafilemanager.cpp:213-244 | an entry exists iff the stream exists, and it records the stream index and type "video" |
| MediaFiles.ExtractAudioStreamInfo | src/model/mediafilemanager.cpp:246-274 | an entry exists iff the stream exists, and it records the stream index and type "audio" |
| MediaFiles.VideoInfoReadsBack | src/model/mediafilemanager.cpp:231-236 | the level, aspect ratio, field order and color range of an entry read back as the stream's parameters |
| MediaFiles.IndexesOfKindSpec | src/model/mediafilemanager.cpp:199-207 | the streams of a kind are listed exactly, in strictly increasing order |
| MediaFiles.FirstOfKindSpec | src/model/mediafilemanager.cpp:126-144 | the chosen stream is the lowest-index stream of its kind; none is chosen iff there is none |
| MediaFiles.VideoInfos | src/model/mediafilemanager.cpp:194-211 | the video list has one entry per video stream, in index order |
| MediaFiles.AudioInfos | src/model/mediafilemanager.cpp:194-211 | the audio list has one entry per audio stream, in index order |
| MediaFiles.VideoListSpec | src/model/mediafilemanager.cpp:199-207 | the video list names every video stream and no other, in strictly increasing index order |
| MediaFiles.AudioListSpec | src/model/mediafilemanager.cpp:199-207 | the audio list names every audio stream and no other, in strictly increasing index order |
| MediaFiles.TotalStreamCountBounds | src/model/mediafilemanager.cpp:296-299 | the total is 0 without a context, and every stream isVideoStream or isAudioStream accepts lies below it |
| MediaFiles.OpenEventsShape | src/model/mediafilemanager.cpp:54-60 | an existing file yields two signals; fileOpened comes last exactly when opening succeeds, after the stream lists; any failure ends with the generic error after the specific one |
| MediaFiles.MediaFileManager.constructor | src/model/mediafilemanager.cpp:14-28 | a new manager holds no file and no resources |
| MediaFiles.MediaFileManager.OpenFile | src/model/mediafilemanager.cpp:37-61 | a missing file is reported and changes nothing; otherwise path and size are set before the library open, kept if it fails, and the signals are OpenEvents |
| MediaFiles.MediaFileManager.CloseFile | src/model/mediafilemanager.cpp:63-71 | no-op without a file; otherwise releases everything, clears path and size and emits fileClosed once, so a second call emits nothing |
| MediaFiles.MediaFileManager.OpenFFmpegFile | src/model/mediafilemanager.cpp:73-119 | releases what was held, then each library failure is reported and stops the attempt; succeeds iff the open succeeds, a stream is found and both allocations succeed |
| MediaFiles.MediaFileManager.SetUpStreams | src/model/mediafilemanager.cpp:96-118 | picks the first video and audio streams, allocates only when one exists, and lists the streams only on success |
| MediaFiles.MediaFileManager.FindStreams | src/model/mediafilemanager.cpp:126-144 | the chosen streams are the first of each kind; true iff at least one exists |
| MediaFiles.MediaFileManager.ExtractAllStreamInfo | src/model/mediafilemanager.cpp:194-211 | the lists become VideoInfos and AudioInfos of the context and are reported |
| MediaFiles.MediaFileManager.CleanupFFmpegResources | src/model/mediafilemanager.cpp:162-182 | closes the context, frees packet and frame, forgets the streams and empties both lists |
| MediaFiles.MediaFileManager.GetTotalStreamCount | src/model/mediafilemanager.cpp:296-299 | the number of streams, 0 without a context |
| MediaFiles.MediaFileManager.GetStreamCounts | src/model/mediafilemanager.cpp:286-294 | the lengths of the two stream lists |
| MediaFiles.MediaFileManager.GetFile | src/model/mediafilemanager.cpp:184-192 | the current path and size |
| FileModel.OperationsKeepConsistent | src/model/model.cpp:16-37 | opening and closing never leave a size without a path |
| FileModel.CloseIsIdempotent | src/model/model.cpp:30-37 | after a close nothing is open; a second close emits nothing and changes nothing |
| FileModel.OpenTwice | src/model/model.cpp:16-28 | opening the same file again leaves the state one open left and emits the same signal again; a failed open is invisible to the close that follows it |
| FileModel.OpenThenClose | src/model/model.cpp:16-37 | opening over an open file does not close it; the following close is the only close signal |
| FileModel.Model.constructor | src/model/model.cpp:5-9 | a new model has no path and size 0 |
| FileModel.Model.OpenFile | src/model/model.cpp:16-28 | the state and signals are those of Open; true iff the file exists |
| FileModel.Model.CloseFile | src/model/model.cpp:30-37 | the state and signals are those of Close |
| FileModel.Model.GetCurrentFile | src/model/model.cpp:39-47 | the current path and size |

## Left out

- Threads, mutexes, wait conditions and `QThread::msleep`: there is no interleaving in the model.
  - The parser's stop flag is an input `stopAt`: the number of the first `isStopped()` check that
    sees the flag set.
  - The processor's `process()` is one iteration (`ProcessStep`), plus the loop run with no other
    thread acting (`Process`).
- All `qDebug` output is left out. So are the per-slice log messages, the stream-type tally
  after the scan and the frame-rate floating point value: they only feed the log.
- The container library is not modelled: `avformat_open_input`, `avformat_find_stream_info`,
  `av_read_frame`, `av_strerror` and the name tables. They enter as parameters:
  - an `OpenOutcome`;
  - a sequence of read results;
  - `Lookups`, the name tables, each of which may have no entry;
  - the packet and frame allocation results.
- The file system is not modelled: whether a path exists and its size are parameters. An empty
  path is taken never to exist.
- Qt model plumbing is left out: `index`, `parent`, `rowCount`, `columnCount`, `flags`,
  `headerData`, `begin/endResetModel`, and the deletion of items and of the packet and frame.
  Tree items are values, and a parent pointer is the path from the root.
- `src/model/streamtreemodel.cpp`, the controller and every view and widget file are not part of
  this model.
- Pointers are replaced by indexes, and the parser's packet by the sequence of read results:
  - the manager's `videoStream`/`audioStream` pointers are stream indexes;
  - the tree's stream map holds (category, row) pairs instead of item pointers.
- `getVideoStream`, `getAudioStream`, `getFormatContext`, `getVideoStreamInfoList` and
  `getAudioStreamInfoList` are left out; they are plain field reads.
- The destructors are left out. They run `closeFile`, `stop` and the parser's
  `cleanupResources`. Of `cleanupResources` only the `closeFile` part is modelled
  (`MediaParser.MediaParserThread.CloseFile`); freeing the parser's packet is not.
- The default-constructed `VideoStreamInfo`/`AudioStreamInfo`, returned for a stream that does
  not exist, is `None`. The header that gives its field defaults is not part of this model.
- MediaParser.ProgressPercent: an overflowing `pts * 100` is signed overflow, which is undefined
  behaviour in C++. The model assumes two's-complement wrap-around there. The division truncates
  toward zero, and the cast keeps the low 32 bits. The pts is in the stream's time base and the duration in `AV_TIME_BASE` units; the
  model compares them as plain numbers, as the code does.
- SliceTree.SliceItemPosition: a negative position is rendered with a minus sign before the
  hexadecimal digits, as `QString::arg` does for base 16.
- SliceTree.SliceTreeModel.RebuildTreeFromSlices: the three counters are unbounded naturals. The
  source's 32-bit `int` counters would overflow only past 2^31 - 1 slices.
- MediaParser.MediaParserThread.OpenFile: the stream-information failure leaves the context
  open, exactly as the code does. The model records it but does not model what the library then
  does with a context that was never closed.
- The name tables (`Lookups`), the channel-layout description and the bits per sample
  are uninterpreted. Only the "unknown" fallback and the 256-byte truncation are modelled, and
  the audio sample format falls back to the empty string.
