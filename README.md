# clip-flow-ai, modelled in Dafny

This project models the deterministic core of clip-flow-ai. The pipeline takes a long video, or a voice-over in story mode, and turns it into short vertical clips. Each clip gets b-roll footage, karaoke subtitles, a thumbnail and a metadata package. The model covers the rules the pipeline's stages apply. Every media, machine-learning and network library these stages call is an oracle: a function or value passed in as a parameter. Examples are what a frame read returns, the face detections of a frame, the vector store's ranked answer to a query, the recogniser's segments and the LLM's reply.

One Dafny module per source file:

- `TextUtils`: `chunk_words`, which groups words into subtitle lines.
- `Matcher`: the `VisualMatcher` class, with its candidate walk and the window of recently used footage.
- `Stabilization`: the `Stabilizer` exponential moving average, with reset.
- `Cropping`: the `SmartCropper` class, covering the frame loop, the dominant face, the clamped crop rectangle and the clip id.
- `Compositing`: the MoviePy `VideoCompositor`, covering crop lookup by time, b-roll overlap and offsets, layer order and the empty-plan rule.
- `FFmpegRendering`: the ffmpeg variant of the compositor, covering the frame-matching writer loop, the filter-graph string with input and label numbering, the per-clip command and the concat list.
- `Effects`: the cover-scale and centre-crop arithmetic of the blurred background.
- `Subtitles`: the word flattening, the active group and word lookup, the single-slot frame cache and the cursor layout of `make_text_frame`.
- `StoryBuilding`: the scene segmentation of `build_plan`, with its fallback to the previous b-roll.
- `Indexing`: the frame choice of `_extract_frames` and the "only new ids" rule of `index_library`.
- `Pipeline` (newer `python_core/pipeline.py`): `get_text_for_range`, the mode dispatch with cleanup in `finally`, the cleanup predicate, and the viral and story runners.
- `LegacyPipeline` (older `src/pipeline.py`).
- `Downloading` (newer downloader): the history file, reuse of files already in the workspace, the resolution gate, the single retry on HTTP 429 and the result paths.
- `LegacyDownloading` (older downloader).
- `Transcription`: the device and compute-type decision, cache precedence and segment mapping.
- `Llm`, `Curation`, `MetadataGeneration`: the LLM client choice, the `[MM:SS]` transcript format, the score filter, and the default package with its fallbacks.
- `Thumbnails`: the first-maximum frame choice and the title placement.
- `Refactoring`: the `refactor.py` migration script, modelled on a tree of paths.

Shared modules:

- `Models`: the value objects passed between stages.
- `Wrappers`: `Option`.
- `PyText`: Python's `int()`, `str.strip`, `str.replace`, `:02d`, `" ".join` and truthiness.
- `PyPath`: `pathlib`'s `name`, `suffix`, `stem` and `with_suffix`.

## Modelling approach

- Source code that updates objects becomes a Dafny class with `modifies` clauses. This covers the matcher, the stabilizer, the cropper, the subtitle frame maker, the collection, the download history, the transcriber's cache, the pipeline managers, the workspace and the refactor script's disk.
- Each source loop becomes a `while` or `for` loop. It is proved against a recursive specification function defined on the prefix of its input.
- The properties are lemmas about those specification functions.
- Times, ratios, distances and the smoothing factor are `real`. Python's `int()` is truncation toward zero. `//` and `%` with a positive divisor are Dafny's Euclidean division and remainder, which agree with Python's floor division there.

## Model

| member | source | states |
|---|---|---|
| TextUtils.ChunkSize | python_core/utils/text_utils.py:7-19 | the number of words after which a line is flushed: `max_words` when it is at least 1, otherwise 1, because `len(current_chunk) >= max_words` then holds after every word |
| TextUtils.Chunks | python_core/utils/text_utils.py:11-24 | every chunk holds between 1 and the chunk size words, and every chunk except the last holds exactly the chunk size |
| TextUtils.ChunkWords | python_core/utils/text_utils.py:7-24 | the loop, with its rolling `current_chunk` and the final flush, returns exactly the groups of the chunks of the input |
| TextUtils.ChunksSnoc | python_core/utils/text_utils.py:14-22 | appending up to one chunk's worth of words after full chunks adds that chunk, or nothing when it is empty (the loop invariant's step) |
| TextUtils.FlattenChunks | python_core/utils/text_utils.py:14-22 | concatenating the chunks gives back the input words, in order |
| TextUtils.GroupsRoundTrip | python_core/utils/text_utils.py:7-28 | the words of the returned caption groups, concatenated, are the input words: no word is lost, duplicated or reordered |
| TextUtils.GroupSizes | python_core/utils/text_utils.py:14-22 | every group has 1 to the chunk size words, all groups but the last are full, and `max_words <= 1` gives one word per group |
| TextUtils.GroupShape | python_core/utils/text_utils.py:27-28 | each group is non-empty, starts at its first word's start, ends at its last word's end and has the words joined by single spaces as text |
| TextUtils.EmptyIffNoGroups | python_core/utils/text_utils.py:21-24 | there are no groups exactly when there are no words |
| TextUtils.FiveWordsTwoPerLine | tests/test_overlay.py:19-24 | five words two per line give three groups, the first "Hello world" from 0.0 to 1.0 and the last "test" alone |
| Stabilization.EmaFrom | src/vision/stabilizer.py:19-35 | a run of updates always has a smoothed value once at least one coordinate was seen |
| Stabilization.SmoothBetween | src/vision/stabilizer.py:29-30 | for `0 < alpha <= 1` the smoothed value lies between the new coordinate and the previous smoothed value |
| Stabilization.EmaWithin | src/vision/stabilizer.py:19-35 | when every coordinate and the starting value lie in an interval, so does every smoothed value |
| Stabilization.EmaConstant | src/vision/stabilizer.py:19-35 | a constant input keeps the smoothed value at that constant |
| Stabilization.EmaAlphaOne | src/vision/stabilizer.py:29-30 | with `alpha = 1` the smoothed value is the latest coordinate |
| Stabilization.HalfAlphaExample | tests/test_vision.py:11-26 | with `alpha = 0.5`, 100 then 200 smooth to 150 |
| Stabilization.Stabilizer.constructor | src/vision/stabilizer.py:8-17 | a new stabilizer keeps `alpha` and has no previous point |
| Stabilization.Stabilizer.Update | src/vision/stabilizer.py:19-35 | the first point, or a point after a reset, is taken as it is; later points are smoothed on each axis as `alpha * x + (1 - alpha) * prev`; the returned pair is the new state truncated toward zero |
| Stabilization.Stabilizer.Reset | src/vision/stabilizer.py:37-40 | both previous coordinates are cleared |
| Effects.CoverGeometry | src/editing/effects.py:6-32 | the geometry exists exactly when neither frame side is zero; a zero side is where `target_w / w` raises |
| Effects.CoverSide | src/editing/effects.py:15-20 | a side scaled by at least `target / side` still reaches the target after truncation |
| Effects.CoverSideExact | src/editing/effects.py:15-20 | the side whose ratio is the scale lands exactly on its target after truncation |
| Effects.CoverAtCovers | src/editing/effects.py:15-20 | resizing by the cover scale reaches the target on both sides and lands exactly on it on at least one side |
| Effects.CoverCovers | src/editing/effects.py:15-20 | the resized frame covers the target on both sides, exactly on one of them |
| Effects.CoverFits | src/editing/effects.py:29-32 | the centred window starts at non-negative offsets, lies inside the resized frame and touches at least one edge |
| Effects.WindowFits | src/editing/effects.py:29-32 | the floor-halved slack keeps a target-sized window inside the resized frame |
| Effects.LandscapeToPortrait | src/editing/effects.py:6-32 | a 1920x1080 frame for a 1080x1920 target is resized to 3413x1920 and cropped from x = 1166 |
| Matcher.WalkFrom | python_core/retrieval/matcher.py:54-80 | the walk accepts the first candidate that is neither in the session history nor farther than 1.0, after skipping only such candidates; it is exhausted only when every candidate was skipped, and crashes only when a distance is missing |
| Matcher.RememberConsistent | python_core/retrieval/matcher.py:86-91 | recording a fresh id keeps the history set equal to the FIFO's elements, the FIFO free of duplicates and no longer than the window |
| Matcher.FindMatchOutcome | python_core/retrieval/matcher.py:18-84 | a failed match leaves the state unchanged; a match returns the path of the first acceptable candidate, which was not in recent use, and records exactly that id; the invariant holds either way |
| Matcher.StaysBlocked | python_core/retrieval/matcher.py:86-91 | after one more match, the id `d` places behind the newest is still blocked exactly when `d + 1` is below the window |
| Matcher.OneCandidateWindowTwo | tests/test_retrieval.py:64-83 | with window 2 and a store that always ranks "vid1" first: a match, then `None`, then `None` |
| Matcher.TwoCandidates | tests/test_retrieval.py:32-61 | two close candidates give "path/to/vid1.mp4", then "path/to/vid2.mp4", both recorded, then `None` |
| Matcher.VisualMatcher.constructor | python_core/retrieval/matcher.py:11-16 | a new matcher has an empty history and FIFO and the configured window |
| Matcher.VisualMatcher.UpdateHistory | python_core/retrieval/matcher.py:86-91 | the new state is the old one with the id recorded and the oldest entry evicted past the window; the invariant is kept |
| Matcher.VisualMatcher.FindMatch | python_core/retrieval/matcher.py:18-84 | the loop returns the path and leaves the state that the match step gives for the store's answer |
| Indexing.FrameIndices | python_core/retrieval/indexer.py:52-57 | a video shorter than three frames gives one index per frame (none for a non-positive count); otherwise three indices |
| Indexing.IndicesInRange | python_core/retrieval/indexer.py:52-57 | every index lies inside the video; a short video gives `0, 1, …`; otherwise start, floor-middle and end, strictly increasing |
| Indexing.KeptFromReads | python_core/retrieval/indexer.py:59-65 | no more frames are kept than indices were tried, and each kept picture is what the read at one of them returned |
| Indexing.KeptAll | python_core/retrieval/indexer.py:59-65 | when every read succeeds, one frame is kept per index |
| Indexing.ExtractFrames | python_core/retrieval/indexer.py:46-68 | the loop returns the kept frames the specification gives, and none for a video that cannot be opened |
| Indexing.Collection.constructor | python_core/retrieval/indexer.py:34-40 | a new collection holds no entries |
| Indexing.Collection.Add | python_core/retrieval/indexer.py:116-121 | the entry is appended and nothing else changes |
| Indexing.NewVideosExact | python_core/retrieval/indexer.py:90-94 | a (file, id) pair is selected exactly when the id is the file's path hash, that id is not already stored and the file was found |
| Indexing.AddedNext | python_core/retrieval/indexer.py:102-125 | one more video adds its entry when it indexes and nothing when it fails |
| Indexing.SelectNew | python_core/retrieval/indexer.py:90-94 | the loop selects exactly the specification's new videos, in scan order |
| Indexing.IndexOne | python_core/retrieval/indexer.py:103-125 | one video yields its entry, or nothing when it has no frames or embedding raises |
| Indexing.IndexLibrary | python_core/retrieval/indexer.py:70-127 | the collection afterwards is the old one plus exactly the entries the specification adds: none when the library is missing or nothing is new |
| Indexing.AddAll | python_core/retrieval/indexer.py:102-125 | the indexing loop appends exactly the entries of the videos that index, in order |
| Indexing.AddedShape | python_core/retrieval/indexer.py:116-121 | at most one entry per new video; each stores its path as document, its file name as metadata and a selected (path, id) pair |
| Indexing.NoIdReAdded | python_core/retrieval/indexer.py:77-94 | when the stored ids could be fetched, no added entry repeats a stored id, and each carries its path's hash |
| Indexing.AddedOrFails | python_core/retrieval/indexer.py:102-125 | every new video is either in the collection afterwards or is one whose indexing failed |
| Indexing.NothingAdded | python_core/retrieval/indexer.py:102-125 | when every video fails to index, nothing is added |
| Indexing.SecondScanAddsNothing | python_core/retrieval/indexer.py:77-98 | scanning the same files again, with the stored ids readable, adds nothing: indexing is idempotent |
| Cropping.Dominant | src/vision/cropper.py:102-108 | the chosen detection has the greatest area, and is the first one of that area, as `max(..., key=area)` picks |
| Cropping.CropX | src/vision/cropper.py:122-130 | the left edge is never negative, keeps a crop no wider than the frame inside it, is exactly centred on the smoothed anchor when that fits, and is clamped to 0 or `W - w` otherwise |
| Cropping.FramesNeedFps | src/vision/cropper.py:66-67 | a clip spans frames only when the frame rate is non-zero, so the per-frame `index / fps` never divides by zero |
| Cropping.FrameCount | src/vision/cropper.py:88-93 | the loop records `end - start` frames, or fewer when a read fails first, and none when the end is not after the start |
| Cropping.Anchors | src/vision/cropper.py:99-117 | one anchor per frame read |
| Cropping.AnchorsAt | src/vision/cropper.py:99-117 | the anchor of frame `k` is the x centre of that frame's dominant face, or the frame middle without a face |
| Cropping.ClipFramesShape | src/vision/cropper.py:122-141 | every crop has consecutive frame indices from the start frame, timestamp `index / fps`, full height from the top, width `int(H * ratio)`, and lies inside the frame whenever that width fits |
| Cropping.PlanShape | src/vision/cropper.py:25-61 | an opened video gives one entry per clip, in order, with id `"{video}_{int(start)}_{int(end)}"` and as many crops as frames were read for it |
| Cropping.CropPlan | src/vision/cropper.py:25-61 | what `process_clips` returns: nothing for a missing or unopenable video, otherwise one crop list per clip, each from a reset stabilizer; `Cropping.PlanShape` and `Cropping.ClipsIndependent` state its shape |
| Cropping.ClipId | src/vision/cropper.py:73 | the clip's id: the video id, then the start and end times truncated to whole seconds, separated by `_`; `Cropping.PlanShape` states that each entry carries it |
| Cropping.ClipsIndependent | src/vision/cropper.py:47-53 | a clip's crops do not depend on the clips before it, because the stabilizer is reset for each clip |
| Cropping.DominantTie | src/vision/cropper.py:102-108 | of two faces of equal area the first is dominant |
| Cropping.SmartCropper.constructor | src/vision/cropper.py:15-23 | the cropper keeps the crop ratio and owns a fresh stabilizer with the configured smoothing factor |
| Cropping.SmartCropper.ProcessSingleClip | src/vision/cropper.py:63-165 | the frame loop returns the clip's crop data as the specification computes it from the frames read and the stabilizer's state |
| Cropping.SmartCropper.CropFrame | src/vision/cropper.py:99-141 | one iteration feeds the frame's anchor to the stabilizer and records the crop at the truncated smoothed x |
| Cropping.SmartCropper.ProcessClips | src/vision/cropper.py:25-61 | the clip loop returns the crop plan: nothing for a missing or unopenable video, otherwise one entry per clip from a reset stabilizer |
| Compositing.PyIndex | src/editing/compositor.py:68-71 | Python indexing: defined exactly for `-len <= i < len`, counting from the end for negative `i` |
| Compositing.ClampIndex | src/editing/compositor.py:21-23 | the clamped index lies in the list when it is non-empty, is `i` when already in range, the last index above and 0 below |
| Compositing.CropAtTime | src/editing/compositor.py:18-26 | a crop exists exactly when the list is non-empty, and it is the one at the clamped index `int(t * fps)` |
| Compositing.CropFilterAgrees | src/editing/compositor.py:61-71 | for non-negative times the filter's lookup and `_get_crop_at_time` return the same crop of a non-empty list |
| Compositing.CropFilterFrame | src/editing/compositor.py:67-71 | the crop the filter uses at a subclip time: the frame at the truncated time times fps while it is in range, otherwise the last one; `Compositing.CropFilterAgrees` and `Compositing.CropFilterNegative` relate it to `_get_crop_at_time` |
| Compositing.CropFilterNegative | src/editing/compositor.py:67-71 | at a negative index the filter reads `frames[-1]`, the last crop, while `_get_crop_at_time` clamps to the first |
| Compositing.ClampOrigin | src/editing/compositor.py:77-79 | a clamped slice origin is never negative, keeps a slice no larger than the frame inside it, and keeps an origin that already fits |
| Compositing.CropSliceSize | src/editing/compositor.py:73-81 | the slice is never larger than the frame, and has exactly the crop's size whenever that fits |
| Compositing.Render | src/editing/compositor.py:28-179 | the clip loop and the b-roll loop produce exactly the composites of the specification, and nothing is written when there are none |
| Compositing.RenderSpec | src/editing/compositor.py:28-179 | `render`'s result: nothing written when no clip has frames, otherwise the composites of the clips with frames, in order, written at 30 fps; `Compositing.CompositesCount` and `Compositing.EmptyPlanRule` state this |
| Compositing.BRollLayersSound | src/editing/compositor.py:104-138 | every b-roll layer comes from an existing file, lasts a positive time, starts at a non-negative offset and ends within the clip |
| Compositing.BRollLayersCount | src/editing/compositor.py:104-138 | there is one b-roll layer per overlapping segment whose file exists |
| Compositing.CompositeOfLayered | src/editing/compositor.py:140-148 | a composite is the blurred background, then the cropped clip, then only b-rolls, and lasts the clip's span |
| Compositing.LayerOrder | src/editing/compositor.py:39-150 | every composite of the render is layered that way |
| Compositing.CompositesCount | src/editing/compositor.py:39-150 | one composite per non-empty entry, and none exactly when every entry has no frames |
| Compositing.EmptyPlanRule | src/editing/compositor.py:152-173 | nothing is written exactly when every entry is empty; otherwise the output path of the plan is written at 30 fps with one composite per non-empty entry |
| FFmpegRendering.CropFrame | src/editing/ffmpeg_compositor.py:177-187 | one write: the crop it came from, with the slice origin clamped to the frame as `max(0, min(x, W - w))` |
| FFmpegRendering.GenerateCroppedVideo | src/editing/ffmpeg_compositor.py:144-200 | fails exactly for a source that does not open or an empty crop list; otherwise the read loop writes exactly the frames whose counter meets the next crop's index |
| FFmpegRendering.MatchInOrder | src/editing/ffmpeg_compositor.py:164-191 | crops are written in order, each at most once and at most one per frame read, with non-negative slice origins |
| FFmpegRendering.ConsecutiveAllWritten | src/editing/ffmpeg_compositor.py:164-191 | when the crops have consecutive frame indices and enough frames can be read, every crop is written |
| FFmpegRendering.ScaleChainInput | src/editing/ffmpeg_compositor.py:112-115 | the `idx`-th selected b-roll's chain reads input `idx + 2` |
| FFmpegRendering.NextLabel | src/editing/ffmpeg_compositor.py:117-118 | the label the `idx`-th overlay writes is the one the next overlay reads |
| FFmpegRendering.OverlayChainInput | src/editing/ffmpeg_compositor.py:117 | the `idx`-th overlay reads the stream the previous step left |
| FFmpegRendering.OverlayChainOutput | src/editing/ffmpeg_compositor.py:117-118 | the `idx`-th overlay ends by labelling the next stream, followed by ";" |
| FFmpegRendering.ChainsStep | src/editing/ffmpeg_compositor.py:106-118 | each loop step appends that b-roll's scale chain, then its overlay with the printed enable window |
| FFmpegRendering.FilterStarts | src/editing/ffmpeg_compositor.py:87-97 | the graph always begins with the blurred background chain and the face overlay |
| FFmpegRendering.FilterEndsFace | src/editing/ffmpeg_compositor.py:97-99 | with no b-roll the graph ends at "[v1]", the stream that is mapped |
| FFmpegRendering.FilterEndsOverlay | src/editing/ffmpeg_compositor.py:106-118 | with `n` b-rolls the graph ends by labelling the stream that is mapped |
| FFmpegRendering.FaceFilterEnds | src/editing/ffmpeg_compositor.py:97 | the face overlay reads "[bg]" and writes "[v1]" |
| FFmpegRendering.MissingSeparator | src/editing/ffmpeg_compositor.py:92-97 | as written, the background chain and the face overlay are joined with no ";", so "[bg][bg]" appears where they meet |
| FFmpegRendering.SelectBRollsExact | src/editing/ffmpeg_compositor.py:77-81 | a segment is selected exactly when it is in the plan and strictly overlaps the clip |
| FFmpegRendering.EnableWindow | src/editing/ffmpeg_compositor.py:106-109 | under strict overlap the enable window is a non-empty interval inside the clip's duration, and it is non-empty only under overlap |
| FFmpegRendering.InputArgs | src/editing/ffmpeg_compositor.py:83-84 | two arguments per selected b-roll |
| FFmpegRendering.InputArgsAt | src/editing/ffmpeg_compositor.py:83-84 | the arguments for the `i`-th b-roll are `-i` and its path |
| FFmpegRendering.CommandInputs | src/editing/ffmpeg_compositor.py:69-127 | input 0 is the source segment, input 1 the face video, b-roll `i` is input `i + 2`; the graph and the mapped label follow the inputs and the segment file is the last argument |
| FFmpegRendering.ConcatSegments | src/editing/ffmpeg_compositor.py:202-213 | the list file holds one `file '<path>'` line per segment and the command copies it to the output |
| FFmpegRendering.CountCharAppend | src/editing/ffmpeg_compositor.py:205-207 | counting a character distributes over concatenation |
| FFmpegRendering.ConcatListLines | src/editing/ffmpeg_compositor.py:205-207 | the list file has exactly one line per segment when the paths contain no newline |
| FFmpegRendering.ConcatListAppend | src/editing/ffmpeg_compositor.py:205-207 | the list of two runs of segments is the concatenation of their lists |
| FFmpegRendering.SelectClipBRolls | src/editing/ffmpeg_compositor.py:77-81 | the selection loop keeps exactly the overlapping segments, in plan order |
| FFmpegRendering.BuildFilter | src/editing/ffmpeg_compositor.py:86-118 | the loop builds the specification's graph and leaves the label of the last overlay to map |
| FFmpegRendering.AddInputs | src/editing/ffmpeg_compositor.py:83-84 | the `-i` loop appends the inputs of the selected b-rolls |
| FFmpegRendering.ClipCommandIs | src/editing/ffmpeg_compositor.py:69-127 | the clip's command is the segment command over the selected b-rolls, their graph and the last label |
| FFmpegRendering.BuildClipCommand | src/editing/ffmpeg_compositor.py:56-127 | the method builds exactly the clip's command |
| FFmpegRendering.RenderClip | src/editing/ffmpeg_compositor.py:37-131 | one clip gives no output when its crop video fails, otherwise its writes, its command and its segment file |
| FFmpegRendering.Render | src/editing/ffmpeg_compositor.py:18-142 | the loop produces exactly the specification's face videos, commands, segment files and concat job |
| FFmpegRendering.SegmentsOnlyForCrops | src/editing/ffmpeg_compositor.py:36-131 | one face video, one command and one segment file per kept clip, and none when the source does not open |
| FFmpegRendering.ConcatIffSegments | src/editing/ffmpeg_compositor.py:139-141 | the segments are concatenated exactly when there is at least one, into the plan's output |
| Subtitles.FirstGroup | python_core/overlay/subtitle.py:61-69 | the index found is the lowest one from `i` on whose group shows at `t` (start and end inclusive), or -1 when none shows |
| Subtitles.FirstWord | python_core/overlay/subtitle.py:78-82 | the lowest index of a word spoken at `t`, or -1 when none is |
| Subtitles.StateAt | python_core/overlay/subtitle.py:60-85 | the state is (-1, -1) or a group index with a word index inside that group or -1 |
| Subtitles.TransparentIffNoGroup | python_core/overlay/subtitle.py:71-73 | the frame is the transparent array exactly when no group shows at `t` |
| Subtitles.ShownGroupIsFirst | python_core/overlay/subtitle.py:60-85 | the group drawn is the first one showing, and the word highlighted is the first one spoken, or none exactly when no word of the group is |
| Subtitles.PlacedWord | python_core/overlay/subtitle.py:118-140 | word `i` is drawn at the line's left edge plus the widths and spaces of the words before it, highlighted exactly when it is the active word |
| Subtitles.PlaceWordsLength | python_core/overlay/subtitle.py:120-140 | one drawing call per word of the group |
| Subtitles.HighlightCount | python_core/overlay/subtitle.py:124 | exactly the active word is highlighted, and none when there is no active word |
| Subtitles.AdvanceMonotone | python_core/overlay/subtitle.py:130-140 | with non-negative widths the cursor never moves left, so words are drawn left to right |
| Subtitles.FindActiveGroup | python_core/overlay/subtitle.py:61-69 | the group loop finds the first group showing |
| Subtitles.FindActiveWord | python_core/overlay/subtitle.py:78-82 | the word loop finds the first word spoken |
| Subtitles.DrawFrame | python_core/overlay/subtitle.py:89-149 | the drawing loop places the words as the specification does, from `(W - text_w) // 2` at height `int(H * vertical_position)` |
| Subtitles.TextFrameMaker.constructor | python_core/overlay/subtitle.py:53-55 | the memo starts at state (-1, -1) with no frame |
| Subtitles.TextFrameMaker.MakeTextFrame | python_core/overlay/subtitle.py:57-149 | the frame returned is what a fresh drawing at `t` gives, whatever the memo held; the memo moves to the state shown and is left alone when nothing shows |
| Subtitles.AllWordsEmpty | python_core/overlay/subtitle.py:37-44 | there are no words exactly when every segment has none |
| Subtitles.AllWordsHas | python_core/overlay/subtitle.py:37-40 | word `k` of segment `i` sits in the collected list after the words of the segments before it |
| Subtitles.CollectWords | python_core/overlay/subtitle.py:37-40 | the loop collects the segments' words in order |
| Subtitles.OverlaySubtitles | python_core/overlay/subtitle.py:27-47 | the method ends as the specification says: video missing, no words, or the caption groups of all the words |
| Subtitles.OverlayGroups | python_core/overlay/subtitle.py:27-47 | the video is reported missing exactly when it is; subtitles are skipped exactly when no segment has words; otherwise there is at least one caption line and the lines spell out all the words in order |
| StoryBuilding.AddSceneBRoll | python_core/modes/story_builder.py:67-81 | a closed scene gets the match's footage, or the previous b-roll's footage when nothing (or an empty path) came back, or nothing at the very start |
| StoryBuilding.SceneLoop | python_core/modes/story_builder.py:56-81 | the segment loop yields the specification's b-rolls and leaves the matcher in the window state the scenes' queries produce |
| StoryBuilding.BuildPlan | python_core/modes/story_builder.py:22-90 | the method returns the specification's plan and transcript and leaves the matcher in its state |
| StoryBuilding.CloseSceneKeeps | python_core/modes/story_builder.py:70-81 | closing a scene keeps every b-roll with footage, keeps them abutting and makes the last one end where the scene ends; at most one is added |
| StoryBuilding.StepInvariant | python_core/modes/story_builder.py:58-81 | one iteration keeps the b-rolls abutting, with footage, ending where the next scene starts, and the matcher's window consistent |
| StoryBuilding.ScenesInvariant | python_core/modes/story_builder.py:56-81 | after the loop has run over the first n segments (starting from `current_start = segments[0].start`, empty text, no b-rolls and a consistent matcher): every b-roll has a non-empty footage path; each b-roll starts where the previous one ends; the last b-roll ends at the current `current_start`; the matcher's `session_history` is still the set of its duplicate-free `recent_matches`, within the window; and there are at most n b-rolls |
| StoryBuilding.StepCount | python_core/modes/story_builder.py:62-81 | a segment that does not close the scene adds no b-roll; one that closes it adds exactly one when some b-roll exists, else at most one, and the earlier ones are kept |
| StoryBuilding.LastSegmentCloses | python_core/modes/story_builder.py:62-81 | the last segment always closes the scene, so no text is left over and the last b-roll ends with the last segment |
| StoryBuilding.PlanShape | python_core/modes/story_builder.py:22-90 | a plan comes back exactly when the audio exists, transcription succeeds, a matcher is set and there are segments; the transcript comes back exactly when the first two hold; a plan has an empty source video, the audio path, no crop data and the output path |
| StoryBuilding.FirstSentenceEnds | tests/test_story_mode.py:48 | the first sentence of the two-sentence voice-over ends a sentence |
| StoryBuilding.OneClipMatches | python_core/retrieval/matcher.py:54-80 | with a window of five, the only candidate matches once and is then blocked |
| StoryBuilding.TwoSentences | tests/test_story_mode.py:63-84 | two five-second segments, the first ending a sentence, give b-rolls [0, 5] with the match and [5, 10] re-using its footage |
| Llm.KeyedClientTable | python_core/intelligence/curator.py:20-34 | for a known provider a client is built exactly when that provider's own key is neither missing nor empty; it is of that provider, carries that key and ignores the other key |
| Curation.InitCases | python_core/intelligence/curator.py:16-37 | the constructor raises exactly for a provider other than "openai" and "anthropic"; otherwise it keeps the settings and has no client exactly when the provider's key is missing or empty |
| Curation.NewCurator | python_core/intelligence/curator.py:16-37 | the constructor: a known provider gives the settings and the keyed client, which may be absent; any other provider gives the `ValueError` naming it; both cases are stated by `Curation.InitCases` |
| Curation.MinSecSplits | python_core/intelligence/curator.py:44-45 | floor-division minutes and seconds split the whole seconds of the start, with the seconds in [0, 60) |
| Curation.TimestampDigits | python_core/intelligence/curator.py:44-46 | under 100 minutes the stamp is `[MM:SS]` with two digits each |
| Curation.LinesPointwise | python_core/intelligence/curator.py:42-47 | one line per segment, in segment order, each `"{stamp} {speaker}: {text}"` |
| Curation.FormatTranscript | python_core/intelligence/curator.py:39-48 | the loop builds the lines of all segments and joins them with newlines |
| Curation.FormatTwo | tests/test_curator.py:25-37 | two segments give their two lines joined by one newline |
| Curation.TimestampExamples | python_core/intelligence/curator.py:44-46 | 0 s, 5 s, 65.5 s and one hour stamp as "[00:00]", "[00:05]", "[01:05]" and "[60:00]" |
| Curation.FilterByScore | python_core/intelligence/curator.py:100-104 | the kept clips are exactly the answer's clips scoring at least the threshold |
| Curation.FilterConcat | python_core/intelligence/curator.py:100-104 | the filter judges each clip alone: it keeps the order and distributes over concatenation |
| Curation.FilterIdempotent | python_core/intelligence/curator.py:100-104 | filtering twice is filtering once |
| Curation.Curate | python_core/intelligence/curator.py:50-73 | the method returns what the specification says: no clips without a client, otherwise the filtered answer to the formatted transcript |
| Curation.CurateSpec | python_core/intelligence/curator.py:50-111 | what `curate` returns: the video id with no clips when there is no client, otherwise the chunk's clips filtered by the virality threshold, the chunk being the formatted transcript joined by newlines; `Curation.CurateOutcomes` states the outcomes |
| Curation.CurateOutcomes | python_core/intelligence/curator.py:50-111 | the result carries the transcript's id; no client or a failed call gives no clips; an answer gives exactly its clips scoring at least the threshold; the topic sent is the configured one or "General Virality" |
| Curation.CurationExample | tests/test_curator.py:40-62 | an answer of one clip scoring 85 against threshold 70 is kept as it is |
| MetadataGeneration.InitClientCases | src/packaging/generator.py:24-38 | a client exists exactly when the provider is "openai" or "anthropic" and its key is neither missing nor empty; an unknown provider gives none instead of raising |
| MetadataGeneration.InitClient | src/packaging/generator.py:24-38 | `_init_client`: the keyed client for a known provider and none for any other provider (no exception); `MetadataGeneration.InitClientCases` states when a client exists |
| MetadataGeneration.DefaultPackage | src/packaging/generator.py:42-50 | the fallback package: the given paths, the clip's title and reasoning, a description naming the clip's category, the tags `#shorts` and `#viral`, and YouTube and TikTok |
| MetadataGeneration.GenerateMetadata | src/packaging/generator.py:40-85 | the default package without a client or when the call raises, otherwise the answer's title, description and captions with its tags cut to `hashtags_count`; `MetadataGeneration.GenerateOutcomes` states these cases |
| MetadataGeneration.SliceTo | src/packaging/generator.py:71 | Python's `s[:k]`: a prefix of length `k` clamped to the list, and for negative `k` the list without its last `-k` items |
| MetadataGeneration.GenerateOutcomes | src/packaging/generator.py:40-85 | every package keeps the paths and targets YouTube and TikTok; without a client or on failure it is the default package built from the clip; an answer gives its title, description, captions and its first `hashtags_count` tags |
| MetadataGeneration.SliceNegative | src/packaging/generator.py:71 | a negative count drops that many tags from the end |
| MetadataGeneration.UnknownProviderDefaults | src/packaging/generator.py:38-53 | an unknown provider never reaches the LLM and gets the default package |
| Thumbnails.SelectFirstMax | python_core/packaging/thumbnail.py:37-51 | the chosen frame is the first of those with the greatest variance, which exceeds -1; no frame is chosen exactly when none exceeds -1 |
| Thumbnails.ReadsWithinBudget | python_core/packaging/thumbnail.py:34-43 | no more than `int(fps * 3)` reads are made, frames are only looked at after a successful read, and at most one read fails |
| Thumbnails.ScanFrames | python_core/packaging/thumbnail.py:37-53 | the loop ends with the specification's selection over the frames looked at, after the specification's number of reads |
| Thumbnails.PlacementBounds | python_core/packaging/thumbnail.py:76-77 | the text box is centred across to within a pixel and placed a third of the free height down, rounded down as `//` rounds |
| Thumbnails.GenerateThumbnail | python_core/packaging/thumbnail.py:23-86 | the method returns exactly the specification's path, drawing and read count |
| Thumbnails.ThumbnailSpec | python_core/packaging/thumbnail.py:23-86 | nothing for a missing or unopenable video; otherwise the sharpest of the frames read within the frame budget, with the upper-cased title placed on it, or nothing when no frame was read; `Thumbnails.ThumbnailOutcomes` states the cases and the maximum |
| Thumbnails.ThumbnailOutcomes | python_core/packaging/thumbnail.py:23-86 | a thumbnail is saved exactly when the video exists, opens and a looked-at frame has variance above -1; then `output_path` is returned and the upper-cased title is drawn on the first sharpest frame; otherwise "" is returned |
| Downloading.HistoryFile.constructor | python_core/ingestion/downloader.py:27-31 | a missing history file is created holding no ids; an existing one keeps its ids |
| Downloading.HistoryFile.IsDuplicate | python_core/ingestion/downloader.py:33-44 | an id is a duplicate exactly when deduplication is on, the file can be read and the id is in it |
| Downloading.HistoryFile.Add | python_core/ingestion/downloader.py:46-60 | the id is appended only when deduplication is on, the file can be read and written and the id is not yet there; otherwise the file is unchanged |
| Downloading.RecordedKeepsDistinct | python_core/ingestion/downloader.py:46-60 | recording keeps the ids distinct and loses none |
| Downloading.AddThenDuplicate | tests/test_downloader.py:41-53 | after a successful record the id is a duplicate; recording twice is recording once; with deduplication off nothing is a duplicate and nothing is recorded |
| Downloading.FindExisting | python_core/ingestion/downloader.py:96-104 | the scan leaves the last listed video and the last listed audio file carrying `[id]`; a name with the video suffix is never taken as audio |
| Downloading.LaterMatchWins | python_core/ingestion/downloader.py:99-104 | the name found is the last matching one in listing order |
| Downloading.NothingFound | python_core/ingestion/downloader.py:99-106 | no file is found exactly when no listed name matches |
| Downloading.Retrieve | python_core/ingestion/downloader.py:176-211 | the download and its retry give the prepared name and the attempts the specification gives |
| Downloading.RetrieveSpec | python_core/ingestion/downloader.py:176-211 | the download with subtitles, and one retry without them only when the failure message reports HTTP 429; any other failure or a crash gives no file; `Downloading.RetryOnce` states the attempts |
| Downloading.RetryOnce | python_core/ingestion/downloader.py:176-198 | the first attempt asks for subtitles; there is a second attempt, without subtitles, exactly when the first failed with "HTTP Error 429"; a name comes from the attempt that succeeded |
| Downloading.VideoDownloader.constructor | python_core/ingestion/downloader.py:17-25 | the downloader keeps its settings, workspace and history |
| Downloading.VideoDownloader.Download | python_core/ingestion/downloader.py:70-242 | the result, the attempts and the history afterwards are those of the specification |
| Downloading.DownloadOutcomes | python_core/ingestion/downloader.py:70-242 | a failed dry run does nothing; the history grows only by the id after a successful download; a duplicate with its video on disk is returned without downloading, with the sidecar path; a video known to be below the minimum is skipped; a fresh result has an audio path exactly when audio is separated |
| Downloading.DownloadSpec | python_core/ingestion/downloader.py:70-242 | what `download` returns: nothing when the dry run raises; the files already in the workspace for a recorded video whose file exists; nothing below the minimum resolution; otherwise the retrieval's file with its metadata and audio paths, adding a new id to a readable and writable history when deduplication is on; `Downloading.DownloadOutcomes` states these cases |
| Downloading.QualitySkip | tests/test_downloader.py:91-106 | a fresh 480p video against a 720p minimum is skipped before download and nothing is recorded |
| LegacyDownloading.VideoDownloader.constructor | src/ingestion/downloader.py:17-24 | the downloader keeps its settings and history |
| LegacyDownloading.VideoDownloader.Download | src/ingestion/downloader.py:71-192 | the result, whether a download was attempted and the history afterwards are those of the specification |
| LegacyDownloading.DuplicateRejected | src/ingestion/downloader.py:92-106 | a known id is rejected at once without downloading; the history grows only by the id after a download; a result needs a successful download |
| Pipeline.GetTextForRange | python_core/pipeline.py:23-30 | the returned text is the space join of the texts of the segments strictly overlapping the range, in segment order |
| Pipeline.OverlapIff | python_core/pipeline.py:28 | the `max(start, seg_start) < min(end, seg_end)` test holds iff both intervals are non-empty and each starts before the other ends, so touching segments are excluded |
| Pipeline.RangeTextsConcat | python_core/pipeline.py:25-29 | the selection of a concatenation is the concatenation of the selections: order is kept and each segment is judged on its own |
| Pipeline.RangeTextsMembers | python_core/pipeline.py:25-29 | at most one text per segment is selected, and a text is selected iff some overlapping segment carries it |
| Pipeline.NoOverlapEmpty | python_core/pipeline.py:23-30 | when no segment overlaps the range the result is the empty string |
| Pipeline.ThreeSegments | python_core/pipeline.py:23-30 | for back-to-back segments [0,5], [5,10], [10,15] and the range [5,10] only the middle text is returned |
| Pipeline.Workspace.constructor | python_core/pipeline.py:37 | the workspace starts out with the given entries |
| Pipeline.Workspace.Unlink | python_core/pipeline.py:209-212 | `unlink` succeeds iff the entry exists and is not refused; only then is exactly that entry removed, otherwise nothing changes |
| Pipeline.CleanupOne | python_core/pipeline.py:206-212 | one listed entry is deleted iff it is a file with one of the five cleaned suffixes, is not `download_history.json` and its deletion is not refused |
| Pipeline.Cleanup | python_core/pipeline.py:202-212 | the loop over the workspace listing leaves exactly the entries the cleanup rule keeps |
| Pipeline.CleanupKey | python_core/pipeline.py:205-212 | an entry is gone after cleanup iff it was listed, is deletable and not refused; every remaining entry keeps its kind |
| Pipeline.CleanupExact | python_core/pipeline.py:205-212 | the same characterisation for all entries at once |
| Pipeline.CleanupDeletes | python_core/pipeline.py:205-212 | when the listing covers the workspace, what remains is exactly the non-deletable and the refused entries |
| Pipeline.HistorySurvives | python_core/pipeline.py:207-208 | the download history file is never deleted by cleanup |
| Pipeline.PipelineManager.constructor | python_core/pipeline.py:34-38 | the manager keeps the focus topic, `keep_temp` and the workspace and has run nothing yet |
| Pipeline.PipelineManager.Run | python_core/pipeline.py:40-67 | the focus topic is replaced only by a truthy topic; the mode dispatched to is recorded; the run raises iff a runner was called and raised; cleanup runs in `finally` exactly when `keep_temp` is off, whether or not the runner raised or returned early |
| Pipeline.DispatchCases | python_core/pipeline.py:55-61 | "story" always goes to the story runner; any other mode goes to the viral runner iff the url is truthy and otherwise runs nothing; upload and platforms are passed on unchanged |
| Pipeline.Dispatch | python_core/pipeline.py:55-61 | the runner `run` hands over to: story mode for mode "story", viral mode with the url otherwise, nothing when that url is missing or empty; `Pipeline.DispatchCases` states this |
| Pipeline.RoutingExamples | tests/test_story_mode.py:93-112 | a url in viral mode reaches the viral runner with that url; story mode passes the audio path |
| Pipeline.UploadTargetsWithin | python_core/pipeline.py:195-200 | without `upload` nothing is uploaded; otherwise a platform is uploaded to iff it is youtube or tiktok and in `platforms`, or in the package's platforms when `platforms` is empty or absent; at most two uploads |
| Pipeline.UploadTargets | python_core/pipeline.py:195-200 | the platforms uploaded to: none unless asked, else whichever of YouTube and TikTok the given list names, or the package lists when none is given; `Pipeline.UploadTargetsWithin` states this |
| Pipeline.ChooseUploads | python_core/pipeline.py:195-200 | the upload decisions of one clip, in YouTube-then-TikTok order, are those of the upload rule |
| Pipeline.EditClip | python_core/pipeline.py:159-200 | one clip: the matcher is queried with the clip's transcript text and updated as the matcher model says; the render plan, the `clip_{i}` paths, the package and the uploads are those of the clip's job |
| Pipeline.EditAll | python_core/pipeline.py:154-200 | the loop over the crop results yields the jobs of the editing fold over the first min(crops, clips) results and leaves the matcher in the fold's state; it stops with an IndexError iff there are more crop results than clips |
| Pipeline.RunViralMode | python_core/pipeline.py:111-200 | the viral run stops after a failed download, a transcription that raises (no audio path and no loadable cache: the `TypeError` leaves `run`), a failed transcription or no curated clips, and otherwise processes the crop results with a fresh matcher |
| Pipeline.ClipResultFits | python_core/pipeline.py:159-182 | a clip's job renders exactly its crop result from the downloaded video and audio into `clip_{i}/clean.mp4` with at most one b-roll spanning the whole clip, and the matcher stays consistent |
| Pipeline.EditFoldShape | python_core/pipeline.py:154-200 | a loop whose step keeps the matcher consistent and makes fitting jobs gives one fitting job per clip, in order |
| Pipeline.EditLoopShape | python_core/pipeline.py:154-200 | the editing loop makes n jobs, job i fitting clip i and crop result i, and keeps the matcher's history consistent |
| Pipeline.ViralStages | python_core/pipeline.py:111-200 | the viral run fails at the download iff the download fails; transcription raises iff the download succeeds with no audio path and no loadable cached transcript; it fails without raising iff the download succeeds and transcription neither raises nor gives a result; when clips are processed there is at least one clip, the number of jobs is min(crops, clips), and it overruns iff there are more crop results than clips |
| Pipeline.ViralSpec | python_core/pipeline.py:111-200 | viral mode stage by stage: download, transcription (which may raise), curation, cropping and the editing loop, stopping at the first stage that gives nothing; `Pipeline.ViralStages` states each outcome |
| Pipeline.RunStoryMode | python_core/pipeline.py:69-109 | the story run matches the story rule: no audio path stops it, a failed plan stops it, otherwise the plan is rendered to `story_{stem}/clean.mp4` and subtitled into `final.mp4` |
| Pipeline.StoryOutcomes | python_core/pipeline.py:69-109 | story mode stops iff the audio path is falsy, and renders iff the audio exists and transcribes with at least one segment; the plan then has no source video, the given audio, and outputs to the story directory's `clean.mp4` |
| Pipeline.StorySpec | python_core/pipeline.py:69-109 | story mode: nothing without an audio path, no render without a plan and transcript, otherwise the plan rendered to `clean.mp4` and `final.mp4` under `story_<stem>`; `Pipeline.StoryOutcomes` states this |
| LegacyPipeline.PipelineManager.constructor | src/pipeline.py:31-35 | the manager keeps the focus topic, `keep_temp` and the workspace, and has cleaned nothing yet |
| LegacyPipeline.PipelineManager.Run | src/pipeline.py:37-137 | the focus topic is replaced only by a truthy topic; the viral flow always runs on the url as given and its outcome is the viral rule's (download, transcription and no-clip stops, one job per crop result, IndexError on overrun; a `None` audio path with no cache raises the transcriber's `TypeError`); `finally` cleans the workspace by the same rule as `src/pipeline.py:139-160` exactly when `keep_temp` is off |
| Refactoring.RewriteUntouched | refactor.py:43-45 | content containing none of `from src.`, `import src.` and `from src ` comes out of the three replacements unchanged |
| Refactoring.UntouchedNotWritten | refactor.py:43-53 | a file without any of the three patterns is neither changed nor written |
| Refactoring.Rewritten | refactor.py:31-55 | rewriting the scanned files keeps exactly the same set of files |
| Refactoring.RewrittenUnion | refactor.py:116-127 | rewriting two disjoint sets of files one after the other equals rewriting their union, and the files written add up the same way |
| Refactoring.RewrittenNothing | refactor.py:117-118 | a scan that finds nothing changes and writes nothing |
| Refactoring.RebaseInjective | refactor.py:83 | moving a subtree never sends two different paths to the same place |
| Refactoring.RenameCarries | refactor.py:83 | a move carries every file of the subtree to its new place with its content, leaves nothing behind and keeps every file outside both places |
| Refactoring.FolderStepCases | refactor.py:75-86 | a folder whose source under `src/` is missing, or whose destination under `python_core/` already exists, is skipped; otherwise its files move under `python_core/` with their contents, none stays behind, and every other file is kept |
| Refactoring.ScanReach | refactor.py:116-124 | the root scan only finds top-level files other than `refactor.py`; the other scans find every `.py` file at any depth below an existing directory |
| Refactoring.ScansDisjoint | refactor.py:114 | the four scans never meet, so no file is rewritten twice |
| Refactoring.ScannedUpToDisjoint | refactor.py:114-127 | each scan is disjoint from the union of the earlier ones |
| Refactoring.ScannedPrefixDisjoint | refactor.py:114-127 | each scan is disjoint from any prefix of the earlier scans |
| Refactoring.ScannedDeep | refactor.py:114-124 | the first three scans only find paths inside a directory |
| Refactoring.ScriptNotScanned | refactor.py:121-122 | the script never rewrites itself |
| Refactoring.ScanKeysOnly | refactor.py:117-124 | what a scan finds depends only on which paths exist, not on what the files hold |
| Refactoring.RefactorOutcome | refactor.py:58-129 | `main` completes iff the package setup succeeds and otherwise leaves the tree untouched and writes nothing; every written file exists, is readable and is not `refactor.py`; after a completed run the tree's paths are those the moves made, and each written file holds the rewritten content of a file that had one of the three patterns |
| Refactoring.Disk.constructor | refactor.py:5-9 | the disk starts from the given project tree with nothing written |
| Refactoring.Disk.Mkdir | refactor.py:63-64 | `mkdir` adds the directory and changes nothing else |
| Refactoring.Disk.Touch | refactor.py:69-70 | `touch` of a missing file creates it empty and changes nothing else |
| Refactoring.Disk.MoveTree | refactor.py:83 | `shutil.move` renames the subtree, into the destination when that is a directory |
| Refactoring.Disk.UpdateImports | refactor.py:31-55 | a readable file gets the three replacements, and is written exactly when its content changes; a directory or an unreadable file is reported and left alone |
| Refactoring.Disk.RewriteAll | refactor.py:126-127 | the loop over one scan's paths rewrites each once and writes exactly the changed readable files |
| Refactoring.Disk.MakePackage | refactor.py:62-71 | `python_core/` is created when missing and then `__init__.py` when missing; it fails, leaving the tree as it was, when `python_core` is a file |
| Refactoring.Disk.MoveAll | refactor.py:74-108 | with `src/` present the twelve folders, then the three files, then a stray `cli.py` are moved in order; without it nothing moves |
| Refactoring.Disk.RewriteScan | refactor.py:117-127 | one scan directory: a missing one is skipped, otherwise every found path is passed to `update_imports` |
| Refactoring.Disk.RewriteScans | refactor.py:114-127 | the four scans in turn rewrite exactly the union of what they find |
| Refactoring.Disk.Refactor | refactor.py:58-129 | the tree and the files written after `main` are those of the whole-run rule, and it reports whether it got past the setup |
| Transcription.DecisionTable | python_core/transcription/engine.py:25-44 | "auto" gives CUDA exactly when it is available and CPU otherwise; an explicit device is kept; half precision is never used on the CPU; "auto" pairs CUDA with float16 and everything else with int8; other explicit compute types pass through |
| Transcription.Device | python_core/transcription/engine.py:25-33 | `_get_device`: an explicit device as given, and for "auto" CUDA when it is available and the CPU otherwise; `Transcription.DecisionTable` states this |
| Transcription.ComputeType | python_core/transcription/engine.py:35-44 | `_get_compute_type`: float16 asked for on the CPU becomes int8, other explicit types pass through, and "auto" gives float16 on CUDA and int8 elsewhere; `Transcription.DecisionTable` states this |
| Transcription.CollectWords | python_core/transcription/engine.py:84-94 | the loop over a segment's words maps each word, in order, and gives none when the recogniser gave no word timestamps |
| Transcription.ConvertSegment | python_core/transcription/engine.py:83-110 | one recognised segment becomes the model segment with its words, stripped text and placeholder speaker |
| Transcription.CollectSegments | python_core/transcription/engine.py:82-110 | the loop over the recognised segments maps them all, in order |
| Transcription.MapSegmentsPointwise | python_core/transcription/engine.py:82-110 | there is one mapped segment per recognised segment, segment i coming from recognised segment i |
| Transcription.MappedSegment | python_core/transcription/engine.py:84-110 | a mapped segment keeps its times and scores, is attributed to SPEAKER_00, has a text trimmed of whitespace at both ends taken from the original, and keeps every word and its probability in order |
| Transcription.AudioTranscriber.constructor | python_core/transcription/engine.py:15-19 | the transcriber fixes its device and compute type by the decision rules and starts from the given cache |
| Transcription.AudioTranscriber.Transcribe | python_core/transcription/engine.py:49-131 | the result, the raise flag and the new cache are those of the transcription rule: a loadable cache answers; with no cache a `None` audio path raises the `TypeError`; a missing audio file, a failed recognition or a failed cache write gives nothing; a fresh result is cached |
| Transcription.CachePrecedence | python_core/transcription/engine.py:54-131 | a loadable cache answers without the audio or the recogniser and is left as it is; the call raises exactly when there is no loadable cache and no audio path, and then gives nothing and leaves the cache alone; a fresh result is cached, so asking again for the same id returns it even when the audio is gone; with no usable cache, missing audio or a failed recognition gives nothing; a fresh result carries the video id, the device and one segment per recognised segment |
| Transcription.TranscribeSpec | python_core/transcription/engine.py:49-131 | what `transcribe` returns and writes: a loadable cache file first; a missing audio path with no cache raises; a missing audio file, a failed recognition or a failed cache write give nothing; a fresh result is written to the cache; `Transcription.CachePrecedence` states these cases |
| PyText.Trunc | src/vision/cropper.py:66-67 | Python's `int()` of a float truncates toward zero: below or at a non-negative value and within one of it, and at or above a negative value and within one of it |
| PyText.Pad2 | python_core/intelligence/curator.py:46 | `{n:02d}` gives at least two characters |
| PyText.Pad2Digits | python_core/intelligence/curator.py:46 | for 0 <= n < 100, `{n:02d}` is the tens digit followed by the units digit |
| PyText.StripTrims | python_core/transcription/engine.py:104 | `str.strip()` returns a contiguous piece of the input with no whitespace at either end |
| PyText.StripUnchanged | python_core/transcription/engine.py:104 | a string without whitespace at its ends is its own `strip()` |
| PyText.Strip | python_core/transcription/engine.py:104 | `str.strip()` with Python's whitespace set; `PyText.StripTrims` and `PyText.StripUnchanged` state what it removes |
| PyText.Join | python_core/pipeline.py:30 | `sep.join(parts)`; `PyText.JoinLength` states its length |
| PyText.JoinLength | python_core/pipeline.py:30 | a join is as long as its parts together plus one separator between each two neighbours, and joining no parts gives the empty string |
| PyText.Upper | python_core/packaging/thumbnail.py:65 | `str.upper()` on ASCII letters; `PyText.UpperShape` states its effect |
| PyText.UpperShape | python_core/packaging/thumbnail.py:65 | upper-casing keeps the length, leaves no lower-case ASCII letter, maps each to an upper-case one, keeps other characters, and is idempotent |
| PyText.Truthy | python_core/pipeline.py:58 | truthiness of an optional string: false for `None` and for the empty string |
| PyText.ReplaceAbsent | refactor.py:43-45 | `str.replace` of a pattern that does not occur leaves the string as it is |
| PyText.ReplaceAll | refactor.py:43-45 | `str.replace`: every non-overlapping occurrence, left to right; `PyText.ReplaceAbsent` states that a string without one comes back unchanged |
| PyPath.LastIndexOf | python_core/pipeline.py:206 | the index found for a suffix or stem split is that of the last occurrence of the character, or -1 when it does not occur |
| PyPath.Name | python_core/pipeline.py:207 | `Path.name`, the final component; `PyPath.NameParts` states it |
| PyPath.Suffix | python_core/ingestion/downloader.py:101-103 | `Path.suffix`, from the last dot of the name unless that dot starts or ends it; `PyPath.NameParts` states it |
| PyPath.Stem | python_core/pipeline.py:84 | `Path.stem`, the name without its suffix; `PyPath.NameParts` states it |
| PyPath.NameParts | python_core/pipeline.py:206-207 | what precedes the name, followed by the name, is the path; the name holds no `/`; the stem followed by the suffix is the name |
| PyPath.WithSuffix | python_core/ingestion/downloader.py:216-224 | `Path.with_suffix`: the path without its suffix, followed by the new one; `PyPath.WithSuffixSwaps` states its effect |
| PyPath.WithSuffixSwaps | python_core/ingestion/downloader.py:216-224 | swapping in a suffix made of a dot and at least one further character, with no dot or `/` after the first, on a path with a non-empty stem, gives the stem followed by that suffix as the new name, so the stem stays and that suffix becomes the suffix |
| PyPath.Child | python_core/pipeline.py:85-89 | `Path(dir) / name` for a directory given without a trailing `/`; `PyPath.ChildName` states its name |
| PyPath.ChildName | python_core/pipeline.py:85-89 | joining a name without `/` onto a directory gives a path named by that name |
| PyPath.ChildTail | python_core/pipeline.py:166-172 | a path made of a part that is empty or ends in `/`, then a part without `/`, is named by the second part |

## Left out

- Media, ML and network libraries are parameters, not models: yt-dlp, OpenCV capture and writer, MediaPipe, MoviePy, PIL, ffmpeg, chromadb, SentenceTransformer, Whisper and the LLM clients. What they return is given.
- Running ffmpeg is not modelled, and neither is `subprocess.run(check=True)` raising. The model builds the command lists and the concat list file's text.
- Pixel content, blurring, resizing, the Laplacian variance, embeddings and their mean pooling are not modelled. Variances, distances and embeddings are given values.
- IEEE floating point is not modelled: times, ratios and scores are exact reals. The `Effects` lemmas hold under exact arithmetic only.
- The text of `str(float)` in ffmpeg arguments is a `fmt` parameter, not Python's shortest-repr algorithm.
- `PyText.Upper` is ASCII-only. Python's Unicode case mapping is not modelled.
- The content hash `_get_file_hash` is an arbitrary function parameter. No lemma needs it to be injective.
- yt-dlp's option dictionary, cookies, format strings and progress hook are not modelled. Only the answers the download logic branches on are modelled: metadata height, a `DownloadError` message and the prepared filename.
- Logging and printing are not modelled, including `refactor.py`'s progress output.
- Font loading, text measuring and drawing are not modelled. A font is a width function, and a drawing is the list of placed words.
- The LLM prompt templates, `max_retries` and the JSON schema of the reply are not modelled. The reply is a parsed value or a failure.
- Writing `metadata.json`, the subtitle overlay's encoding and the uploaders themselves are outside the model. The viral runner records the package, the paths and the platforms it would upload to.
- Each runner's call to `index_library` is outside the runner models: the vector store's answers are a parameter. `Indexing` models `index_library` separately.
- `shutil.move` failure cases are not modelled: moving onto an existing file, or across devices. A move is a rename of a subtree, into the destination when it is a directory.
- Other I/O failures are not modelled beyond the explicit unreadable-file, refused-delete, unwritable-cache and failed-read sets.
- Deleting the ffmpeg compositor's temporary face and segment files is not modelled.
- Concurrency is not modelled: the server's job threads, the Celery worker and the asyncio log queue.
- These files are not part of this model: `backend/server.py`, `python_core/worker.py`, `cli.py`, `main.py`, the distribution uploaders, `python_core/audio/separator.py`, the configuration managers and the prompt constants. `main.py`'s `get_text_for_range` is the same as `Pipeline.GetTextForRange`.
- Whether ffmpeg accepts the filter graph is not modelled. `FFmpegRendering.MissingSeparator` shows its missing `;` between `[bg]` and the face chain, and the graph is kept as written.
- Cropping.SmartCropper.ProcessClips: writing each clip's `crops_{clip_id}.json` into the workspace is not modelled, and neither is a failed write raising out of `process_clips` after the earlier clips were saved. The method returns the crop lists as if every write succeeded.
- Cropping.SmartCropper.ProcessSingleClip: the `debug_preview` video writer is not modelled, including its cropped frames and its size check. It writes only a debug file and does not change the returned crops.
- PyPath.Child: joins with a plain `/`. This matches pathlib only for a non-empty directory other than "." without a trailing `/`, The model does not cover those two other cases.
- Indexing.Collection.Add: appends the entry even when its id is already stored. `index_library` gets there only after fetching the stored ids failed. The vector store itself would keep one entry per id, so a model of that is not given.
- Pipeline.RunViralMode: the transcript cache file that the transcriber writes is kept in the transcriber's own cache map. It is not added to the workspace entries that cleanup sees. The source's cleanup deletes every `.json` file but the history, so it would delete that file too, and the model's cleanup does not.
- LegacyPipeline.PipelineManager.Run: `src/transcription/engine.py` is not part of this model, so the older runner's transcriber is modelled as the `python_core` one, including its `TypeError` for a missing audio path.
