/** The value objects passed between the pipeline's stages. */
module Models {
  import opened Wrappers

  /** A transcribed word with its time span and confidence. */
  datatype Word = Word(word: string, start: real, end: real, score: real)

  /** A block of speech; `words` is empty when no word timestamps came back. */
  datatype Segment = Segment(
    start: real, end: real, text: string, speaker: string, words: seq<Word>,
    avgLogprob: real, noSpeechProb: real)

  datatype TranscriptionResult = TranscriptionResult(
    videoId: string, language: string, segments: seq<Segment>,
    processingTime: real, device: string)

  /** Words shown together as one subtitle line. */
  datatype CaptionGroup = CaptionGroup(words: seq<Word>, start: real, end: real, text: string)

  /** The crop rectangle chosen for one source frame. */
  datatype FrameCrop = FrameCrop(
    timestamp: real, frameIndex: int, cropX: int, cropY: int, cropH: int, cropW: int)

  datatype ClipCropData = ClipCropData(clipId: string, videoId: string, frames: seq<FrameCrop>)

  /** Supplementary footage shown over [start, end] of the source timeline. */
  datatype BRollSegment = BRollSegment(start: real, end: real, videoPath: string)

  datatype RenderPlan = RenderPlan(
    sourceVideoPath: string, sourceAudioPath: Option<string>,
    clipCropData: seq<ClipCropData>, bRollSegments: seq<BRollSegment>, outputPath: string)

  /** A time range chosen by the curator. */
  datatype ViralClip = ViralClip(
    startTime: real, endTime: real, title: string, viralityScore: int,
    reasoning: string, category: string)

  datatype CurationResult = CurationResult(videoId: string, clips: seq<ViralClip>)

  datatype VideoPackage = VideoPackage(
    videoPath: string, thumbnailPath: string, title: string, description: string,
    tags: seq<string>, captions: string, platforms: seq<string>)
}
