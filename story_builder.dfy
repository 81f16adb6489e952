/** `StoryBuilder.build_plan`: a voice-over's transcript cut into scenes, each
    scene covered by the b-roll the matcher finds for its text. */
module StoryBuilding {
  import opened Wrappers
  import opened Models
  import PyText
  import PyPath
  import Matcher

  /** A scene is at least this long before a sentence end can close it. */
  const MinSceneDuration: real := 3.0

  /** `seg.text.strip().endswith((".", "?", "!"))`. */
  predicate SentenceEnd(text: string)
  {
    var s := PyText.Strip(text);
    |s| > 0 && s[|s| - 1] in ".?!"
  }

  /** Whether segment `i` closes the scene that began at `start`: the last
      segment always does, any other one when the scene has lasted long
      enough and the segment ends a sentence. */
  predicate Closes(segs: seq<Segment>, i: nat, start: real)
    requires i < |segs|
  {
    i == |segs| - 1 || (segs[i].end - start >= MinSceneDuration && SentenceEnd(segs[i].text))
  }

  /** The loop's variables: the b-rolls so far, the open scene's text and
      start, and the matcher's window. */
  datatype Scan = Scan(bRolls: seq<BRollSegment>, text: string, start: real, matcher: Matcher.State)

  /** The b-roll for a closed scene: the match when one came back (an empty
      path counts as none), else the previous b-roll's footage over the
      same span, else nothing. */
  function CloseScene(bRolls: seq<BRollSegment>, start: real, end: real, found: Option<string>): seq<BRollSegment>
  {
    if found.Some? && found.value != "" then bRolls + [BRollSegment(start, end, found.value)]
    else if |bRolls| > 0 then bRolls + [BRollSegment(start, end, bRolls[|bRolls| - 1].videoPath)]
    else bRolls
  }

  /** One iteration of the segment loop; `store` answers the matcher's query
      for a scene text. */
  function Step(segs: seq<Segment>, i: nat, sc: Scan, store: string -> Matcher.QueryResult): Scan
    requires i < |segs|
  {
    var text := sc.text + (" " + segs[i].text);
    if Closes(segs, i, sc.start) then
      var r := Matcher.FindMatchStep(sc.matcher, store(PyText.Strip(text)));
      Scan(CloseScene(sc.bRolls, sc.start, segs[i].end, r.0), "", segs[i].end, r.1)
    else Scan(sc.bRolls, text, sc.start, sc.matcher)
  }

  /** The loop's variables after the first `n` segments. */
  function Scenes(segs: seq<Segment>, m: Matcher.State, store: string -> Matcher.QueryResult, n: nat): Scan
    requires 0 < |segs| && n <= |segs|
  {
    if n == 0 then Scan([], "", segs[0].start, m)
    else Step(segs, n - 1, Scenes(segs, m, store, n - 1), store)
  }

  /** `(plan, transcript)` and the matcher's window afterwards (`None` when
      no matcher was set). */
  datatype Built = Built(plan: Option<RenderPlan>, transcript: Option<TranscriptionResult>, matcher: Option<Matcher.State>)

  function StoryVideoId(audioPath: string): string
  {
    "story_" + PyPath.Stem(audioPath)
  }

  function PlanFor(audioPath: string, outputPath: string, bRolls: seq<BRollSegment>): RenderPlan
  {
    RenderPlan("", Some(audioPath), [], bRolls, outputPath)
  }

  /** What `build_plan` returns. `transcribe` stands for the transcriber,
      called with the audio path and the story's video id. */
  function BuildSpec(audioExists: bool, audioPath: string, outputPath: string,
                     transcribe: (string, string) -> Option<TranscriptionResult>,
                     matcher: Option<Matcher.State>, store: string -> Matcher.QueryResult): Built
  {
    if !audioExists then Built(None, None, matcher)
    else
      var t := transcribe(audioPath, StoryVideoId(audioPath));
      if t.None? then Built(None, None, matcher)
      else if matcher.None? then Built(None, t, matcher)
      else if |t.value.segments| == 0 then Built(None, t, matcher)
      else
        var segs := t.value.segments;
        var sc := Scenes(segs, matcher.value, store, |segs|);
        Built(Some(PlanFor(audioPath, outputPath, sc.bRolls)), t, Some(sc.matcher))
  }

  /** The b-roll appended when a scene closes. */
  method AddSceneBRoll(bRolls: seq<BRollSegment>, currentStart: real, end: real, matchPath: Option<string>)
    returns (out: seq<BRollSegment>)
    ensures out == CloseScene(bRolls, currentStart, end, matchPath)
  {
    out := bRolls;
    if matchPath.Some? && matchPath.value != "" {
      out := out + [BRollSegment(currentStart, end, matchPath.value)];
    } else if |bRolls| > 0 {
      var prev := bRolls[|bRolls| - 1];
      out := out + [BRollSegment(currentStart, end, prev.videoPath)];
    }
  }

  /** The scene loop of `build_plan`, with the matcher's `find_match`. */
  method SceneLoop(segs: seq<Segment>, matcher: Matcher.VisualMatcher, store: string -> Matcher.QueryResult)
    returns (bRolls: seq<BRollSegment>)
    requires 0 < |segs| && matcher.Valid()
    modifies matcher
    ensures matcher.Valid()
    ensures var sc := Scenes(segs, old(matcher.Model()), store, |segs|);
      bRolls == sc.bRolls && matcher.Model() == sc.matcher
  {
    bRolls := [];
    var currentText := "";
    var currentStart := segs[0].start;
    for i := 0 to |segs|
      invariant matcher.Valid()
      invariant Scenes(segs, old(matcher.Model()), store, i) == Scan(bRolls, currentText, currentStart, matcher.Model())
    {
      ghost var before := Scan(bRolls, currentText, currentStart, matcher.Model());
      var seg := segs[i];
      currentText := currentText + (" " + seg.text);
      var duration := seg.end - currentStart;
      var isLast := i == |segs| - 1;
      var isLongEnough := duration >= MinSceneDuration;
      var isSentenceEnd := SentenceEnd(seg.text);
      if isLast || (isLongEnough && isSentenceEnd) {
        var query := PyText.Strip(currentText);
        var matchPath := matcher.FindMatch(store(query));
        bRolls := AddSceneBRoll(bRolls, currentStart, seg.end, matchPath);
        currentStart := seg.end;
        currentText := "";
      }
      assert Scan(bRolls, currentText, currentStart, matcher.Model()) == Step(segs, i, before, store);
    }
  }

  /** `build_plan`; a `null` matcher is one never set. */
  method BuildPlan(audioExists: bool, audioPath: string, outputPath: string,
                   transcribe: (string, string) -> Option<TranscriptionResult>,
                   matcher: Matcher.VisualMatcher?, store: string -> Matcher.QueryResult)
    returns (plan: Option<RenderPlan>, transcript: Option<TranscriptionResult>)
    requires matcher != null ==> matcher.Valid()
    modifies matcher
    ensures matcher != null ==> matcher.Valid()
    ensures var b := BuildSpec(audioExists, audioPath, outputPath, transcribe,
                               if matcher == null then None else Some(old(matcher.Model())), store);
      plan == b.plan && transcript == b.transcript
      && (matcher != null ==> b.matcher == Some(matcher.Model()))
  {
    if !audioExists {
      return None, None;
    }
    var videoId := StoryVideoId(audioPath);
    transcript := transcribe(audioPath, videoId);
    if transcript.None? {
      return None, None;
    }
    if matcher == null {
      return None, transcript;
    }
    var segments := transcript.value.segments;
    if |segments| == 0 {
      return None, transcript;
    }
    var bRolls := SceneLoop(segments, matcher, store);
    plan := Some(PlanFor(audioPath, outputPath, bRolls));
  }

  /** What holds of the loop's variables after any number of segments. */
  predicate ScanInvariant(sc: Scan)
  {
    (forall i :: 0 <= i < |sc.bRolls| ==> sc.bRolls[i].videoPath != "")
    && (forall i :: 0 <= i < |sc.bRolls| - 1 ==> sc.bRolls[i + 1].start == sc.bRolls[i].end)
    && (|sc.bRolls| > 0 ==> sc.bRolls[|sc.bRolls| - 1].end == sc.start)
    && Matcher.Consistent(sc.matcher)
  }

  /** Closing a scene that starts where the last b-roll ended keeps the
      b-rolls abutting and every one of them with footage. */
  lemma CloseSceneKeeps(bRolls: seq<BRollSegment>, start: real, end: real, found: Option<string>)
    requires forall i :: 0 <= i < |bRolls| ==> bRolls[i].videoPath != ""
    requires forall i :: 0 <= i < |bRolls| - 1 ==> bRolls[i + 1].start == bRolls[i].end
    requires |bRolls| > 0 ==> bRolls[|bRolls| - 1].end == start
    ensures var b := CloseScene(bRolls, start, end, found);
      (forall i :: 0 <= i < |b| ==> b[i].videoPath != "")
      && (forall i :: 0 <= i < |b| - 1 ==> b[i + 1].start == b[i].end)
      && (|b| > 0 ==> b[|b| - 1].end == end)
      && |b| <= |bRolls| + 1
  {
  }

  lemma StepInvariant(segs: seq<Segment>, i: nat, sc: Scan, store: string -> Matcher.QueryResult)
    requires i < |segs| && ScanInvariant(sc)
    ensures ScanInvariant(Step(segs, i, sc, store))
    ensures |Step(segs, i, sc, store).bRolls| <= |sc.bRolls| + 1
  {
    var text := sc.text + (" " + segs[i].text);
    if Closes(segs, i, sc.start) {
      var r := Matcher.FindMatchStep(sc.matcher, store(PyText.Strip(text)));
      Matcher.FindMatchOutcome(sc.matcher, store(PyText.Strip(text)));
      CloseSceneKeeps(sc.bRolls, sc.start, segs[i].end, r.0);
    }
  }

  /** Every b-roll has footage, each one starts where the previous one ended,
      the last one ends where the open scene starts, there is at most one
      per segment, and the matcher's window stays consistent. */
  lemma {:induction false} ScenesInvariant(segs: seq<Segment>, m: Matcher.State,
                                           store: string -> Matcher.QueryResult, n: nat)
    requires 0 < |segs| && n <= |segs| && Matcher.Consistent(m)
    ensures ScanInvariant(Scenes(segs, m, store, n))
    ensures |Scenes(segs, m, store, n).bRolls| <= n
    decreases n
  {
    if n > 0 {
      ScenesInvariant(segs, m, store, n - 1);
      StepInvariant(segs, n - 1, Scenes(segs, m, store, n - 1), store);
    }
  }

  /** Once a b-roll exists, every later scene adds exactly one more; before
      that, a scene with no match adds nothing. */
  lemma StepCount(segs: seq<Segment>, i: nat, sc: Scan, store: string -> Matcher.QueryResult)
    requires i < |segs|
    ensures var next := Step(segs, i, sc, store);
      if !Closes(segs, i, sc.start) then next.bRolls == sc.bRolls
      else if |sc.bRolls| > 0 then |next.bRolls| == |sc.bRolls| + 1 && next.bRolls[..|sc.bRolls|] == sc.bRolls
      else |next.bRolls| <= 1
  {
    var next := Step(segs, i, sc, store);
    if Closes(segs, i, sc.start) && |sc.bRolls| > 0 {
      assert next.bRolls[..|sc.bRolls|] == sc.bRolls;
    }
  }

  /** The last segment always closes the scene: the loop ends with no open
      text, the last b-roll (if any) ending with the last segment. */
  lemma LastSegmentCloses(segs: seq<Segment>, m: Matcher.State, store: string -> Matcher.QueryResult)
    requires 0 < |segs| && Matcher.Consistent(m)
    ensures var sc := Scenes(segs, m, store, |segs|);
      sc.text == "" && sc.start == segs[|segs| - 1].end
      && (|sc.bRolls| > 0 ==> sc.bRolls[|sc.bRolls| - 1].end == segs[|segs| - 1].end)
  {
    ScenesInvariant(segs, m, store, |segs|);
  }

  /** A plan is made exactly when the audio exists, transcribes, a matcher is
      set and the transcript has segments; it has no source video and no
      crops, the given audio and output paths, and a transcript comes back
      whenever transcription succeeded. */
  lemma PlanShape(audioExists: bool, audioPath: string, outputPath: string,
                  transcribe: (string, string) -> Option<TranscriptionResult>,
                  matcher: Option<Matcher.State>, store: string -> Matcher.QueryResult)
    ensures var b := BuildSpec(audioExists, audioPath, outputPath, transcribe, matcher, store);
      var t := transcribe(audioPath, StoryVideoId(audioPath));
      (b.plan.Some? <==> audioExists && t.Some? && matcher.Some? && |t.value.segments| > 0)
      && (b.transcript.Some? <==> audioExists && t.Some?)
      && (b.transcript.Some? ==> b.transcript == t)
      && (b.plan.Some? ==>
            b.plan.value.sourceVideoPath == "" && b.plan.value.sourceAudioPath == Some(audioPath)
            && b.plan.value.clipCropData == [] && b.plan.value.outputPath == outputPath)
  {
  }

  const DummyPath: string := "assets/b_roll/dummy.mp4"

  /** A store that ranks the same single clip first for every query. */
  function OneClipStore(q: string): Matcher.QueryResult
  {
    Matcher.Results([["dummy"]], [[0.1]], [[DummyPath]])
  }

  /** The first sentence of the two-sentence voice-over ends a sentence. */
  lemma FirstSentenceEnds()
    ensures SentenceEnd("This is the first sentence.")
  {
    var t := "This is the first sentence.";
    assert !PyText.IsSpace(t[0]) && !PyText.IsSpace(t[|t| - 1]);
    PyText.StripUnchanged(t);
    assert t[|t| - 1] == '.';
  }

  lemma OneClipMatches(q1: string, q2: string)
    ensures Matcher.FindMatchStep(Matcher.InitialState(5), OneClipStore(q1))
            == (Some(DummyPath), Matcher.State({"dummy"}, ["dummy"], 5))
    ensures Matcher.FindMatchStep(Matcher.State({"dummy"}, ["dummy"], 5), OneClipStore(q2))
            == (None, Matcher.State({"dummy"}, ["dummy"], 5))
  {
    assert Matcher.WalkFrom(["dummy"], [0.1], {}, 0) == Matcher.Accept(0);
    assert [] + ["dummy"] == ["dummy"];
    assert Matcher.Remember(Matcher.InitialState(5), "dummy") == Matcher.State({"dummy"}, ["dummy"], 5);
    assert Matcher.WalkFrom(["dummy"], [0.1], {"dummy"}, 1) == Matcher.Exhausted;
    assert Matcher.WalkFrom(["dummy"], [0.1], {"dummy"}, 0) == Matcher.Exhausted;
  }

  /** The store always ranking one clip first, a window of five, and two
      five-second segments of which the first ends a sentence (the
      voice-over "This is the first sentence." / "This is the second
      sentence."): two b-rolls, [0, 5] with the match and [5, 10] re-using
      it, because the window blocks the same clip the second time. */
  lemma TwoSentences(t1: string, t2: string)
    requires SentenceEnd(t1)
    ensures var segs := [Segment(0.0, 5.0, t1, "", [], 0.0, 0.0), Segment(5.0, 10.0, t2, "", [], 0.0, 0.0)];
      Scenes(segs, Matcher.InitialState(5), OneClipStore, 2).bRolls
      == [BRollSegment(0.0, 5.0, DummyPath), BRollSegment(5.0, 10.0, DummyPath)]
  {
    var segs := [Segment(0.0, 5.0, t1, "", [], 0.0, 0.0), Segment(5.0, 10.0, t2, "", [], 0.0, 0.0)];
    var m1 := Matcher.State({"dummy"}, ["dummy"], 5);
    var s0 := Scenes(segs, Matcher.InitialState(5), OneClipStore, 0);
    assert s0 == Scan([], "", 0.0, Matcher.InitialState(5));
    assert Closes(segs, 0, s0.start);
    var q1 := PyText.Strip(s0.text + (" " + segs[0].text));
    OneClipMatches(q1, q1);
    var s1 := Step(segs, 0, s0, OneClipStore);
    assert s1 == Scan([BRollSegment(0.0, 5.0, DummyPath)], "", 5.0, m1);
    assert Closes(segs, 1, s1.start);
    var q2 := PyText.Strip(s1.text + (" " + segs[1].text));
    OneClipMatches(q2, q2);
    var s2 := Step(segs, 1, s1, OneClipStore);
    assert s2.bRolls == [BRollSegment(0.0, 5.0, DummyPath), BRollSegment(5.0, 10.0, DummyPath)];
  }
}
