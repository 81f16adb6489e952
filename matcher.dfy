/** `VisualMatcher`: the best unused b-roll for a text query, with a sliding
    window of recently used footage ids. */
module Matcher {
  import opened Wrappers

  /** What embedding the query and asking the vector store for its top ten
      hands back: `Failed` when either raised, `Empty` for a falsy result,
      otherwise the store's nested lists (one inner list per query embedding). */
  datatype QueryResult =
    | Failed
    | Empty
    | Results(ids: seq<seq<string>>, distances: seq<seq<real>>, paths: seq<seq<string>>)

  /** Candidates farther than this are rejected; exactly 1.0 is accepted. */
  const MaxDistance: real := 1.0

  /** How a walk over the ranked candidates ends. `Crashed`: a distance was
      missing for a candidate (an IndexError, caught as a failed match). */
  datatype Walk = Accept(index: nat) | Exhausted | Crashed

  predicate Skipped(id: string, dist: real, history: set<string>)
  {
    id in history || dist > MaxDistance
  }

  /** The `for i, vid_id in enumerate(ids)` walk, from position `i` on:
      the first candidate that is neither recently used nor too far wins. */
  function WalkFrom(ids: seq<string>, dists: seq<real>, history: set<string>, i: nat): (w: Walk)
    requires i <= |ids| && i <= |dists|
    ensures w.Accept? ==>
      (i <= w.index < |ids| && w.index < |dists|
       && ids[w.index] !in history && dists[w.index] <= MaxDistance
       && forall j :: i <= j < w.index ==> Skipped(ids[j], dists[j], history))
    ensures w.Exhausted? ==>
      (|ids| <= |dists| && forall j :: i <= j < |ids| ==> Skipped(ids[j], dists[j], history))
    ensures w.Crashed? ==> |dists| < |ids|
    decreases |ids| - i
  {
    if i >= |ids| then Exhausted
    else if i >= |dists| then Crashed
    else if Skipped(ids[i], dists[i], history) then WalkFrom(ids, dists, history, i + 1)
    else Accept(i)
  }

  /** The matcher's state: the "recently used" set, the FIFO of accepted ids
      and the configured window. */
  datatype State = State(history: set<string>, recent: seq<string>, window: int)

  function Elements(s: seq<string>): set<string>
  {
    set x | x in s
  }

  predicate NoDuplicates(s: seq<string>)
  {
    forall i, j :: 0 <= i < j < |s| ==> s[i] != s[j]
  }

  function WindowSize(window: int): nat
  {
    if window < 0 then 0 else window
  }

  /** The invariant `_update_history` keeps. */
  predicate Consistent(s: State)
  {
    s.history == Elements(s.recent) && NoDuplicates(s.recent) && |s.recent| <= WindowSize(s.window)
  }

  function InitialState(window: int): State
  {
    State({}, [], window)
  }

  /** `_update_history(vid)`: record the id, evicting the oldest one when the
      FIFO grows past the window. Only called for ids not already recorded. */
  function Remember(s: State, vid: string): State
    requires vid !in s.history
  {
    var recent := s.recent + [vid];
    if |recent| > s.window then State(s.history + {vid} - {recent[0]}, recent[1..], s.window)
    else State(s.history + {vid}, recent, s.window)
  }

  /** `find_match` on a state and the store's answer: the path found (if any)
      and the state afterwards. A missing distance list or metadata entry
      raises inside the `try`, which the source turns into `None`. */
  function FindMatchStep(s: State, q: QueryResult): (Option<string>, State)
  {
    match q
    case Failed => (None, s)
    case Empty => (None, s)
    case Results(ids, dists, paths) =>
      if |ids| == 0 || |dists| == 0 then (None, s)
      else
        match WalkFrom(ids[0], dists[0], s.history, 0)
        case Accept(i) =>
          if |paths| == 0 || i >= |paths[0]| then (None, s)
          else (Some(paths[0][i]), Remember(s, ids[0][i]))
        case Exhausted => (None, s)
        case Crashed => (None, s)
  }

  /** `_update_history` keeps the set equal to the FIFO's elements, the FIFO
      free of duplicates and no longer than the window. */
  lemma RememberConsistent(s: State, vid: string)
    requires Consistent(s) && vid !in s.history
    ensures Consistent(Remember(s, vid))
  {
    var recent := s.recent + [vid];
    assert Elements(recent) == s.history + {vid};
    assert NoDuplicates(recent);
    if |recent| > s.window {
      forall x | x in Elements(recent) - {recent[0]}
        ensures x in Elements(recent[1..])
      {
        var j :| 0 <= j < |recent| && recent[j] == x;
        assert j != 0;
        assert recent[1..][j - 1] == x;
      }
    }
  }

  /** A failed match leaves the state alone; a successful one records exactly
      the accepted candidate, which was not in recent use, and the state stays
      consistent either way. */
  lemma FindMatchOutcome(s: State, q: QueryResult)
    requires Consistent(s)
    ensures var (r, t) := FindMatchStep(s, q);
      Consistent(t)
      && (r.None? ==> t == s)
      && (r.Some? ==>
            q.Results? && |q.ids| > 0 && |q.distances| > 0
            && var w := WalkFrom(q.ids[0], q.distances[0], s.history, 0);
               w.Accept? && w.index < |q.paths[0]| && q.ids[0][w.index] !in s.history
               && r.value == q.paths[0][w.index] && t == Remember(s, q.ids[0][w.index]))
  {
    if q.Results? && |q.ids| > 0 && |q.distances| > 0 {
      var w := WalkFrom(q.ids[0], q.distances[0], s.history, 0);
      if w.Accept? && |q.paths| > 0 && w.index < |q.paths[0]| {
        RememberConsistent(s, q.ids[0][w.index]);
      }
    }
  }

  /** Soft rotation: an id `d` places behind the newest entry stays blocked
      after one more successful match exactly when `d + 1` is still inside the
      window, so footage cannot recur within `window` consecutive matches. */
  lemma StaysBlocked(s: State, u: string, d: nat)
    requires Consistent(s) && u !in s.history && d < |s.recent|
    ensures (s.recent[|s.recent| - 1 - d] in Remember(s, u).history) == (d + 1 < s.window)
  {
    var v := s.recent[|s.recent| - 1 - d];
    assert v in Elements(s.recent);
    var recent := s.recent + [u];
    if |recent| > s.window {
      assert recent[0] == s.recent[0];
      assert (v == s.recent[0]) == (|s.recent| - 1 - d == 0);
    }
  }

  /** Window 2, a store that always ranks the same footage first: match, then
      nothing, then nothing, because failed matches do not slide the window. */
  lemma OneCandidateWindowTwo()
    ensures var q := Results([["vid1"]], [[0.1]], [["vid1.mp4"]]);
      var (r1, s1) := FindMatchStep(InitialState(2), q);
      var (r2, s2) := FindMatchStep(s1, q);
      var (r3, s3) := FindMatchStep(s2, q);
      r1 == Some("vid1.mp4") && r2 == None && r3 == None
  {
  }

  /** Two close candidates: the first, then the second, then nothing. */
  lemma TwoCandidates()
    ensures var q := Results([["vid1", "vid2"]], [[0.1, 0.9]], [["path/to/vid1.mp4", "path/to/vid2.mp4"]]);
      var (r1, s1) := FindMatchStep(InitialState(2), q);
      var (r2, s2) := FindMatchStep(s1, q);
      var (r3, s3) := FindMatchStep(s2, q);
      r1 == Some("path/to/vid1.mp4") && "vid1" in s1.history
      && r2 == Some("path/to/vid2.mp4") && "vid2" in s2.history && r3 == None
  {
  }

  class VisualMatcher {
    var sessionHistory: set<string>
    var recentMatches: seq<string>
    const historyWindow: int

    function Model(): State
      reads this
    {
      State(sessionHistory, recentMatches, historyWindow)
    }

    ghost predicate Valid()
      reads this
    {
      Consistent(Model())
    }

    constructor (window: int)
      ensures Valid() && Model() == InitialState(window)
    {
      sessionHistory := {};
      recentMatches := [];
      historyWindow := window;
    }

    method UpdateHistory(vid: string)
      requires Valid() && vid !in sessionHistory
      modifies this
      ensures Valid() && Model() == Remember(old(Model()), vid)
    {
      RememberConsistent(Model(), vid);
      sessionHistory := sessionHistory + {vid};
      recentMatches := recentMatches + [vid];
      if |recentMatches| > historyWindow {
        var removed := recentMatches[0];
        recentMatches := recentMatches[1..];
        sessionHistory := sessionHistory - {removed};
      }
    }

    method FindMatch(q: QueryResult) returns (path: Option<string>)
      requires Valid()
      modifies this
      ensures Valid() && (path, Model()) == FindMatchStep(old(Model()), q)
    {
      if q.Failed? || q.Empty? || |q.ids| == 0 || |q.distances| == 0 {
        return None;
      }
      var ids := q.ids[0];
      var distances := q.distances[0];
      var i := 0;
      while i < |ids|
        invariant 0 <= i <= |ids| && i <= |distances|
        invariant Model() == old(Model())
        invariant WalkFrom(ids, distances, sessionHistory, i) == WalkFrom(ids, distances, sessionHistory, 0)
      {
        if i >= |distances| {
          return None;
        }
        var dist := distances[i];
        if ids[i] in sessionHistory || dist > MaxDistance {
          i := i + 1;
          continue;
        }
        if |q.paths| == 0 || i >= |q.paths[0]| {
          return None;
        }
        var videoPath := q.paths[0][i];
        UpdateHistory(ids[i]);
        return Some(videoPath);
      }
      return None;
    }
  }
}
