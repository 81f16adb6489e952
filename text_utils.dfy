/** Splitting a flat word list into subtitle lines (`chunk_words`). */
module TextUtils {
  import opened Models
  import PyText

  /** The chunk length `chunk_words` really produces: the length test runs after
      each append, so any `max_words <= 1` closes a group after every word. */
  function ChunkSize(maxWords: int): (k: nat)
    ensures k >= 1 && (maxWords >= 1 ==> k == maxWords)
  {
    if maxWords <= 1 then 1 else maxWords
  }

  /** Consecutive runs of `k` words, the last one possibly shorter. */
  function Chunks(words: seq<Word>, k: nat): (cs: seq<seq<Word>>)
    requires k >= 1
    ensures forall i :: 0 <= i < |cs| ==> 1 <= |cs[i]| <= k
    ensures forall i :: 0 <= i < |cs| - 1 ==> |cs[i]| == k
    decreases |words|
  {
    if |words| == 0 then []
    else if |words| <= k then [words]
    else [words[..k]] + Chunks(words[k..], k)
  }

  /** The words of several chunks, in order. */
  function Flatten(cs: seq<seq<Word>>): seq<Word>
  {
    if |cs| == 0 then [] else cs[0] + Flatten(cs[1..])
  }

  function WordTexts(words: seq<Word>): seq<string>
  {
    seq(|words|, i requires 0 <= i < |words| => words[i].word)
  }

  /** `_create_group`: only ever called on a non-empty chunk. */
  function CreateGroup(words: seq<Word>): CaptionGroup
    requires |words| > 0
  {
    CaptionGroup(words, words[0].start, words[|words| - 1].end, PyText.Join(" ", WordTexts(words)))
  }

  function GroupsOf(cs: seq<seq<Word>>): seq<CaptionGroup>
    requires forall i :: 0 <= i < |cs| ==> |cs[i]| > 0
  {
    seq(|cs|, i requires 0 <= i < |cs| => CreateGroup(cs[i]))
  }

  /** What `chunk_words(words, max_words)` returns. */
  function Groups(words: seq<Word>, maxWords: int): seq<CaptionGroup>
  {
    GroupsOf(Chunks(words, ChunkSize(maxWords)))
  }

  function GroupWords(groups: seq<CaptionGroup>): seq<seq<Word>>
  {
    seq(|groups|, i requires 0 <= i < |groups| => groups[i].words)
  }

  /** Whole chunks of `k` words followed by a shorter (possibly empty) rest
      chunk back into exactly those pieces. */
  lemma {:induction false} ChunksSnoc(cs: seq<seq<Word>>, b: seq<Word>, k: nat)
    requires k >= 1 && |b| <= k
    requires forall i :: 0 <= i < |cs| ==> |cs[i]| == k
    ensures Chunks(Flatten(cs) + b, k) == cs + (if |b| == 0 then [] else [b])
    decreases |cs|
  {
    if |cs| == 0 {
      assert Flatten(cs) + b == b;
    } else {
      var w := Flatten(cs) + b;
      assert w == cs[0] + (Flatten(cs[1..]) + b);
      assert w[..k] == cs[0];
      assert w[k..] == Flatten(cs[1..]) + b;
      ChunksSnoc(cs[1..], b, k);
      if |w| <= k {
        assert |cs| == 1 && |b| == 0;
        assert Flatten(cs[1..]) == [];
      }
    }
  }

  lemma {:induction false} FlattenSnoc(cs: seq<seq<Word>>, c: seq<Word>)
    ensures Flatten(cs + [c]) == Flatten(cs) + c
    decreases |cs|
  {
    if |cs| == 0 {
      assert Flatten([c]) == c + Flatten([]);
    } else {
      assert (cs + [c])[1..] == cs[1..] + [c];
      FlattenSnoc(cs[1..], c);
    }
  }

  lemma GroupsOfSnoc(cs: seq<seq<Word>>, c: seq<Word>)
    requires forall i :: 0 <= i < |cs| ==> |cs[i]| > 0
    requires |c| > 0
    ensures GroupsOf(cs + [c]) == GroupsOf(cs) + [CreateGroup(c)]
  {
  }

  /** `chunk_words`, statement by statement. */
  method ChunkWords(words: seq<Word>, maxWords: int) returns (groups: seq<CaptionGroup>)
    ensures groups == Groups(words, maxWords)
  {
    ghost var k := ChunkSize(maxWords);
    ghost var full: seq<seq<Word>> := [];
    groups := [];
    var current: seq<Word> := [];
    var i := 0;
    while i < |words|
      invariant 0 <= i <= |words|
      invariant |current| < k
      invariant Flatten(full) + current == words[..i]
      invariant forall j :: 0 <= j < |full| ==> |full[j]| == k
      invariant groups == GroupsOf(full)
    {
      assert words[..i + 1] == words[..i] + [words[i]];
      current := current + [words[i]];
      i := i + 1;
      if |current| >= maxWords {
        FlattenSnoc(full, current);
        GroupsOfSnoc(full, current);
        groups := groups + [CreateGroup(current)];
        full := full + [current];
        current := [];
      }
    }
    assert words[..i] == words;
    assert words == Flatten(full) + current;
    ChunksSnoc(full, current, k);
    if |current| > 0 {
      GroupsOfSnoc(full, current);
      groups := groups + [CreateGroup(current)];
    }
  }

  /** Chunking loses and repeats nothing: the chunks spell out the input. */
  lemma {:induction false} FlattenChunks(words: seq<Word>, k: nat)
    requires k >= 1
    ensures Flatten(Chunks(words, k)) == words
    decreases |words|
  {
    if |words| == 0 {
    } else if |words| <= k {
      assert Flatten([words]) == words + Flatten([]);
    } else {
      var cs := Chunks(words, k);
      assert cs[1..] == Chunks(words[k..], k);
      FlattenChunks(words[k..], k);
      assert words == words[..k] + words[k..];
    }
  }

  /** Concatenating every group's words gives back the input word list exactly. */
  lemma GroupsRoundTrip(words: seq<Word>, maxWords: int)
    ensures Flatten(GroupWords(Groups(words, maxWords))) == words
  {
    var cs := Chunks(words, ChunkSize(maxWords));
    assert GroupWords(Groups(words, maxWords)) == cs;
    FlattenChunks(words, ChunkSize(maxWords));
  }

  /** Each group holds 1..max_words words and all but the last hold exactly
      max_words; with max_words <= 1 every word is a group of its own. */
  lemma GroupSizes(words: seq<Word>, maxWords: int)
    ensures forall g :: g in Groups(words, maxWords) ==> 1 <= |g.words| <= ChunkSize(maxWords)
    ensures var gs := Groups(words, maxWords);
      forall i :: 0 <= i < |gs| - 1 ==> |gs[i].words| == ChunkSize(maxWords)
    ensures maxWords <= 1 ==> forall g :: g in Groups(words, maxWords) ==> |g.words| == 1
  {
  }

  /** A group spans its first word's start to its last word's end, and its
      text is the word texts joined by single spaces. */
  lemma GroupShape(words: seq<Word>, maxWords: int, i: int)
    requires 0 <= i < |Groups(words, maxWords)|
    ensures var g := Groups(words, maxWords)[i];
      |g.words| > 0 && g.start == g.words[0].start && g.end == g.words[|g.words| - 1].end
      && g.text == PyText.Join(" ", WordTexts(g.words))
  {
  }

  /** No words give no groups; some words give at least one group. */
  lemma EmptyIffNoGroups(words: seq<Word>, maxWords: int)
    ensures (Groups(words, maxWords) == []) == (words == [])
  {
  }

  /** The five words "Hello world this is test" at half-second steps, two per
      line: three lines, "Hello world" over [0.0, 1.0], ending with "test". */
  lemma FiveWordsTwoPerLine()
    ensures var ws := [Word("Hello", 0.0, 0.5, 1.0), Word("world", 0.5, 1.0, 1.0),
                       Word("this", 1.0, 1.5, 1.0), Word("is", 1.5, 2.0, 1.0),
                       Word("test", 2.0, 2.5, 1.0)];
      var gs := Groups(ws, 2);
      |gs| == 3 && gs[0].text == "Hello world" && gs[0].start == 0.0 && gs[0].end == 1.0
      && gs[2].text == "test" && |gs[2].words| == 1
  {
    var ws := [Word("Hello", 0.0, 0.5, 1.0), Word("world", 0.5, 1.0, 1.0),
               Word("this", 1.0, 1.5, 1.0), Word("is", 1.5, 2.0, 1.0),
               Word("test", 2.0, 2.5, 1.0)];
    var rest := ws[2..];
    assert rest[..2] == ws[2..4] && rest[2..] == [ws[4]];
    assert Chunks(rest[2..], 2) == [[ws[4]]];
    assert Chunks(rest, 2) == [ws[2..4], [ws[4]]];
    var cs := Chunks(ws, 2);
    assert cs == [ws[..2], ws[2..4], [ws[4]]];
    assert WordTexts(cs[0]) == ["Hello", "world"];
    assert WordTexts(cs[2]) == ["test"];
  }
}
