/** `LibraryIndexer`: incremental indexing of the b-roll library into the
    vector store. */
module Indexing {
  import opened Wrappers
  import PyPath

  /** A decoded frame; its pixels are not modelled. */
  datatype Picture = Picture(index: int)

  /** What `cv2.VideoCapture` gives for a file: whether it opened, the frame
      count it reports, and the outcome of seeking to a frame and reading it. */
  datatype Video = Video(opens: bool, frameCount: int, read: int -> Option<Picture>)

  /** A file found by the library globs. */
  datatype LibraryFile = LibraryFile(path: string, video: Video)

  /** One collection record: id, document, the `path` and `filename`
      metadata, and the mean embedding. */
  datatype Entry = Entry(id: string, document: string, path: string, filename: string, embedding: seq<real>)

  /** `_extract_frames` takes this many frames from a long enough video. */
  const NumFrames: int := 3

  /** The frame positions `_extract_frames` seeks to. */
  function FrameIndices(total: int): (r: seq<int>)
    ensures total < NumFrames ==> |r| == (if total < 0 then 0 else total)
    ensures total >= NumFrames ==> |r| == 3
  {
    if total < NumFrames then seq(if total < 0 then 0 else total, i => i)
    else [0, total / 2, total - 1]
  }

  /** Short videos give every position once, longer ones the first, middle
      and last; every position is a real frame. */
  lemma IndicesInRange(total: int)
    ensures var r := FrameIndices(total);
      (forall i :: 0 <= i < |r| ==> 0 <= r[i] < total)
      && (total < NumFrames ==> forall i :: 0 <= i < |r| ==> r[i] == i)
      && (total >= NumFrames ==> r == [0, total / 2, total - 1] && 0 < total / 2 < total - 1)
  {
  }

  /** The successful reads among the first `n` positions, in order. */
  function Kept(video: Video, indices: seq<int>, n: nat): seq<Picture>
    requires n <= |indices|
  {
    if n == 0 then []
    else
      var before := Kept(video, indices, n - 1);
      match video.read(indices[n - 1])
      case Some(p) => before + [p]
      case None => before
  }

  function Frames(video: Video): seq<Picture>
  {
    if !video.opens then []
    else
      var indices := FrameIndices(video.frameCount);
      Kept(video, indices, |indices|)
  }

  /** Every kept frame came from a read of one of the positions, and there
      are never more frames than positions. */
  lemma {:induction false} KeptFromReads(video: Video, indices: seq<int>, n: nat)
    requires n <= |indices|
    ensures |Kept(video, indices, n)| <= n
    ensures forall p :: p in Kept(video, indices, n) ==>
      exists i :: 0 <= i < n && video.read(indices[i]) == Some(p)
    decreases n
  {
    if n > 0 {
      KeptFromReads(video, indices, n - 1);
    }
  }

  /** Only a failed read drops a frame: when every read succeeds, one frame
      comes back per position. */
  lemma {:induction false} KeptAll(video: Video, indices: seq<int>, n: nat)
    requires n <= |indices|
    requires forall i :: 0 <= i < n ==> video.read(indices[i]).Some?
    ensures |Kept(video, indices, n)| == n
    decreases n
  {
    if n > 0 {
      KeptAll(video, indices, n - 1);
    }
  }

  /** `_extract_frames(video_path)`. */
  method ExtractFrames(video: Video) returns (frames: seq<Picture>)
    ensures frames == Frames(video)
  {
    if !video.opens {
      return [];
    }
    var totalFrames := video.frameCount;
    var indices: seq<int>;
    if totalFrames < NumFrames {
      indices := seq(if totalFrames < 0 then 0 else totalFrames, i => i);
    } else {
      indices := [0, totalFrames / 2, totalFrames - 1];
    }
    frames := [];
    for k := 0 to |indices|
      invariant frames == Kept(video, indices, k)
    {
      var r := video.read(indices[k]);
      if r.Some? {
        frames := frames + [r.value];
      }
    }
  }

  /** The vector store's collection; only `add` and the ids are used here. */
  class Collection {
    var entries: seq<Entry>

    constructor ()
      ensures entries == []
    {
      entries := [];
    }

    function Ids(): set<string>
      reads this
    {
      IdsOf(entries)
    }

    /** `collection.add`: the entry is appended even when its id is already
        stored, which `index_library` reaches only when fetching the ids
        failed; the vector store itself would keep a single entry per id. */
    method Add(e: Entry)
      modifies this
      ensures entries == old(entries) + [e]
    {
      entries := entries + [e];
    }
  }

  function IdsOf(entries: seq<Entry>): set<string>
  {
    set i | 0 <= i < |entries| :: entries[i].id
  }

  /** `existing_ids`: the collection's ids, or none when fetching them failed. */
  function ExistingIds(fetchOk: bool, entries: seq<Entry>): set<string>
  {
    if fetchOk then IdsOf(entries) else {}
  }

  /** `new_videos`: the files among the first `n` whose id is not present,
      paired with that id, in glob order. */
  function NewVideos(files: seq<LibraryFile>, existing: set<string>, hash: string -> string, n: nat)
    : seq<(LibraryFile, string)>
    requires n <= |files|
  {
    if n == 0 then []
    else
      var before := NewVideos(files, existing, hash, n - 1);
      var f := files[n - 1];
      if hash(f.path) !in existing then before + [(f, hash(f.path))] else before
  }

  /** A file makes the new list exactly when its id is not present, and
      then with that id; nothing else is in it. */
  lemma {:induction false} NewVideosExact(files: seq<LibraryFile>, existing: set<string>, hash: string -> string, n: nat)
    requires n <= |files|
    ensures forall v: (LibraryFile, string) :: v in NewVideos(files, existing, hash, n) <==>
      v.1 == hash(v.0.path) && v.1 !in existing && exists i :: 0 <= i < n && files[i] == v.0
    decreases n
  {
    if n > 0 {
      NewVideosExact(files, existing, hash, n - 1);
      var f := files[n - 1];
      forall v: (LibraryFile, string) | v.1 == hash(v.0.path) && v.1 !in existing && (exists i :: 0 <= i < n && files[i] == v.0)
        ensures v in NewVideos(files, existing, hash, n)
      {
        var i :| 0 <= i < n && files[i] == v.0;
        if i < n - 1 {
          assert v in NewVideos(files, existing, hash, n - 1);
        }
      }
    }
  }

  /** The record for a new video, or `None` when it gave no frames or the
      embedding raised. `embed` encodes the frames and mean-pools them. */
  function TryIndex(f: LibraryFile, id: string, embed: seq<Picture> -> Option<seq<real>>): Option<Entry>
  {
    var frames := Frames(f.video);
    if frames == [] then None
    else
      match embed(frames)
      case None => None
      case Some(e) => Some(Entry(id, f.path, f.path, PyPath.Name(f.path), e))
  }

  /** The records added for the first `n` new videos, in order. */
  function Added(news: seq<(LibraryFile, string)>, embed: seq<Picture> -> Option<seq<real>>, n: nat): seq<Entry>
    requires n <= |news|
  {
    if n == 0 then []
    else
      var before := Added(news, embed, n - 1);
      match TryIndex(news[n - 1].0, news[n - 1].1, embed)
      case Some(e) => before + [e]
      case None => before
  }

  /** One more new video adds its record, if it yields one. */
  lemma AddedNext(news: seq<(LibraryFile, string)>, embed: seq<Picture> -> Option<seq<real>>, k: nat)
    requires k < |news|
    ensures TryIndex(news[k].0, news[k].1, embed).Some? ==>
      Added(news, embed, k + 1) == Added(news, embed, k) + [TryIndex(news[k].0, news[k].1, embed).value]
    ensures TryIndex(news[k].0, news[k].1, embed).None? ==>
      Added(news, embed, k + 1) == Added(news, embed, k)
  {
  }

  /** What `index_library` appends to the collection. */
  function IndexSpec(libExists: bool, fetchOk: bool, entries: seq<Entry>, files: seq<LibraryFile>,
                     hash: string -> string, embed: seq<Picture> -> Option<seq<real>>): seq<Entry>
  {
    if !libExists then []
    else
      var news := NewVideos(files, ExistingIds(fetchOk, entries), hash, |files|);
      Added(news, embed, |news|)
  }

  method SelectNew(files: seq<LibraryFile>, existing: set<string>, hash: string -> string)
    returns (newVideos: seq<(LibraryFile, string)>)
    ensures newVideos == NewVideos(files, existing, hash, |files|)
  {
    newVideos := [];
    for k := 0 to |files|
      invariant newVideos == NewVideos(files, existing, hash, k)
    {
      var fileId := hash(files[k].path);
      if fileId !in existing {
        newVideos := newVideos + [(files[k], fileId)];
      }
    }
  }

  /** The body of the indexing loop for one new video; `None` stands for
      the `continue` on no frames and for the exception the `except` logs. */
  method IndexOne(vid: LibraryFile, fileId: string, embed: seq<Picture> -> Option<seq<real>>)
    returns (entry: Option<Entry>)
    ensures entry == TryIndex(vid, fileId, embed)
  {
    var frames := ExtractFrames(vid.video);
    if |frames| == 0 {
      return None;
    }
    var embedding := embed(frames);
    if embedding.None? {
      return None;
    }
    return Some(Entry(fileId, vid.path, vid.path, PyPath.Name(vid.path), embedding.value));
  }

  /** `index_library`: `mp4s` and `movs` are what the two recursive globs
      return, `fetchOk` whether `collection.get()` succeeded. */
  method IndexLibrary(libExists: bool, fetchOk: bool, collection: Collection,
                      mp4s: seq<LibraryFile>, movs: seq<LibraryFile>,
                      hash: string -> string, embed: seq<Picture> -> Option<seq<real>>)
    modifies collection
    ensures collection.entries
            == old(collection.entries) + IndexSpec(libExists, fetchOk, old(collection.entries), mp4s + movs, hash, embed)
  {
    if !libExists {
      return;
    }
    var existingIds: set<string> := {};
    if fetchOk {
      existingIds := collection.Ids();
    }
    var videoFiles := mp4s + movs;
    var newVideos := SelectNew(videoFiles, existingIds, hash);
    if |newVideos| == 0 {
      assert old(collection.entries) + [] == old(collection.entries);
      return;
    }
    AddAll(collection, newVideos, embed);
  }

  /** The loop over the new videos: each yields a record or is skipped. */
  method AddAll(collection: Collection, newVideos: seq<(LibraryFile, string)>,
                embed: seq<Picture> -> Option<seq<real>>)
    modifies collection
    ensures collection.entries == old(collection.entries) + Added(newVideos, embed, |newVideos|)
  {
    ghost var start := collection.entries;
    assert start + [] == start;
    for k := 0 to |newVideos|
      invariant collection.entries == start + Added(newVideos, embed, k)
    {
      var entry := IndexOne(newVideos[k].0, newVideos[k].1, embed);
      AddedNext(newVideos, embed, k);
      if entry.Some? {
        assert start + Added(newVideos, embed, k) + [entry.value] == start + (Added(newVideos, embed, k) + [entry.value]);
        collection.Add(entry.value);
      }
    }
  }

  /** The (path, id) pairs of the first `n` new videos. */
  function Keys(news: seq<(LibraryFile, string)>, n: nat): set<(string, string)>
    requires n <= |news|
  {
    set i | 0 <= i < n :: (news[i].0.path, news[i].1)
  }

  /** Every record added carries a new video's path and id, the path as
      document and `path` metadata, and the file name. */
  lemma {:induction false} AddedShape(news: seq<(LibraryFile, string)>, embed: seq<Picture> -> Option<seq<real>>, n: nat)
    requires n <= |news|
    ensures |Added(news, embed, n)| <= n
    ensures forall e :: e in Added(news, embed, n) ==>
      e.document == e.path && e.filename == PyPath.Name(e.path) && (e.path, e.id) in Keys(news, n)
    decreases n
  {
    if n > 0 {
      AddedShape(news, embed, n - 1);
      AddedNext(news, embed, n - 1);
      var before := Added(news, embed, n - 1);
      assert Keys(news, n - 1) <= Keys(news, n);
      var r := TryIndex(news[n - 1].0, news[n - 1].1, embed);
      if r.Some? {
        var e := r.value;
        assert (e.path, e.id) == (news[n - 1].0.path, news[n - 1].1);
        assert (e.path, e.id) in Keys(news, n);
        assert forall x :: x in before + [e] ==> x in before || x == e;
      }
    }
  }

  /** Present ids are never re-added: with the ids fetched, no record added
      carries an id the collection already had, and each one's id is the
      hash of its path. */
  lemma NoIdReAdded(fetchOk: bool, entries: seq<Entry>, files: seq<LibraryFile>,
                    hash: string -> string, embed: seq<Picture> -> Option<seq<real>>)
    requires fetchOk
    ensures forall e :: e in IndexSpec(true, fetchOk, entries, files, hash, embed) ==>
      e.id !in IdsOf(entries) && e.id == hash(e.path)
  {
    var existing := ExistingIds(fetchOk, entries);
    var news := NewVideos(files, existing, hash, |files|);
    NewVideosExact(files, existing, hash, |files|);
    AddedShape(news, embed, |news|);
    forall e | e in Added(news, embed, |news|)
      ensures e.id !in IdsOf(entries) && e.id == hash(e.path)
    {
      var i :| 0 <= i < |news| && (news[i].0.path, news[i].1) == (e.path, e.id);
      assert news[i] in news;
    }
  }

  /** After a scan, each candidate's id is present or indexing it fails. */
  lemma {:induction false} AddedOrFails(news: seq<(LibraryFile, string)>, embed: seq<Picture> -> Option<seq<real>>, n: nat)
    requires n <= |news|
    ensures forall i :: 0 <= i < n ==>
      news[i].1 in IdsOf(Added(news, embed, n)) || TryIndex(news[i].0, news[i].1, embed).None?
    decreases n
  {
    if n > 0 {
      AddedOrFails(news, embed, n - 1);
      var before := Added(news, embed, n - 1);
      var after := Added(news, embed, n);
      assert IdsOf(before) <= IdsOf(after) by {
        forall x | x in IdsOf(before) ensures x in IdsOf(after) {
          var j :| 0 <= j < |before| && before[j].id == x;
          assert after[j] == before[j];
        }
      }
      match TryIndex(news[n - 1].0, news[n - 1].1, embed)
      case Some(e) =>
        assert after[|after| - 1] == e;
      case None =>
    }
  }

  lemma {:induction false} NothingAdded(news: seq<(LibraryFile, string)>, embed: seq<Picture> -> Option<seq<real>>, n: nat)
    requires n <= |news|
    requires forall i :: 0 <= i < n ==> TryIndex(news[i].0, news[i].1, embed).None?
    ensures Added(news, embed, n) == []
    decreases n
  {
    if n > 0 {
      NothingAdded(news, embed, n - 1);
    }
  }

  /** Scanning the same files twice with the same readers adds nothing the
      second time: a file either has its id present now or fails again. */
  lemma SecondScanAddsNothing(fetchOk: bool, entries: seq<Entry>, files: seq<LibraryFile>,
                              hash: string -> string, embed: seq<Picture> -> Option<seq<real>>)
    ensures var after := entries + IndexSpec(true, fetchOk, entries, files, hash, embed);
      IndexSpec(true, true, after, files, hash, embed) == []
  {
    var existing := ExistingIds(fetchOk, entries);
    var news := NewVideos(files, existing, hash, |files|);
    var added := Added(news, embed, |news|);
    var after := entries + added;
    AddedOrFails(news, embed, |news|);
    NewVideosExact(files, existing, hash, |files|);
    assert IdsOf(added) <= IdsOf(after) by {
      forall x | x in IdsOf(added) ensures x in IdsOf(after) {
        var j :| 0 <= j < |added| && added[j].id == x;
        assert after[|entries| + j] == added[j];
      }
    }
    assert existing <= IdsOf(after) by {
      forall x | x in existing ensures x in IdsOf(after) {
        var j :| 0 <= j < |entries| && entries[j].id == x;
        assert after[j] == entries[j];
      }
    }
    var news2 := NewVideos(files, IdsOf(after), hash, |files|);
    NewVideosExact(files, IdsOf(after), hash, |files|);
    forall i | 0 <= i < |news2|
      ensures TryIndex(news2[i].0, news2[i].1, embed).None?
    {
      var v := news2[i];
      assert v in news2;
      var k :| 0 <= k < |files| && files[k] == v.0;
      assert v.1 !in existing;
      assert v in news;
      var j :| 0 <= j < |news| && news[j] == v;
    }
    NothingAdded(news2, embed, |news2|);
  }
}
