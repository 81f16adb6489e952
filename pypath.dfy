/** The `pathlib` operations the pipeline uses, on '/'-separated path strings. */
module PyPath {

  /** Index of the last `c` in `s`, or -1 when there is none. */
  function LastIndexOf(s: string, c: char): (i: int)
    ensures -1 <= i < |s|
    ensures 0 <= i ==> s[i] == c
    ensures forall j :: i < j < |s| ==> s[j] != c
  {
    if |s| == 0 then -1
    else if s[|s| - 1] == c then |s| - 1
    else LastIndexOf(s[..|s| - 1], c)
  }

  /** `Path(p).name`: the final component. */
  function Name(p: string): (n: string)
    ensures |n| <= |p|
  {
    p[LastIndexOf(p, '/') + 1..]
  }

  /** `Path(p).suffix`: from the last '.' of the name, unless that dot
      starts the name or ends it. */
  function Suffix(p: string): (x: string)
    ensures |x| <= |Name(p)|
  {
    var n := Name(p);
    var i := LastIndexOf(n, '.');
    if 0 < i < |n| - 1 then n[i..] else ""
  }

  /** `Path(p).stem`: the name without its suffix. */
  function Stem(p: string): string
  {
    var n := Name(p);
    n[..|n| - |Suffix(p)|]
  }

  /** `str(Path(p).with_suffix(s))`. */
  function WithSuffix(p: string, s: string): string
  {
    p[..|p| - |Suffix(p)|] + s
  }

  /** `str(Path(dir) / name)` for a non-empty `dir` other than "." and
      without a trailing '/';
      pathlib gives just `name` for `Path(".") / name` and "a/name" for
      `Path("a/") / name`, where this concatenation would give "./name" and
      "a//name". */
  function Child(dir: string, name: string): string
  {
    dir + "/" + name
  }

  /** The name is the part of the path after its last '/', holds no '/',
      and is its stem followed by its suffix. */
  lemma NameParts(p: string)
    ensures p[..|p| - |Name(p)|] + Name(p) == p
    ensures forall k :: 0 <= k < |Name(p)| ==> Name(p)[k] != '/'
    ensures Stem(p) + Suffix(p) == Name(p)
  {
    NameTail(p);
    StemSuffix(p);
  }

  lemma NameTail(p: string)
    ensures p[..|p| - |Name(p)|] + Name(p) == p
    ensures forall k :: 0 <= k < |Name(p)| ==> Name(p)[k] != '/'
  {
    var i := LastIndexOf(p, '/');
    var n := p[i + 1..];
    assert Name(p) == n;
    assert |p| - |Name(p)| == i + 1;
    SplitAt(p, i + 1);
    forall k | 0 <= k < |n|
      ensures n[k] != '/'
    {
      assert n[k] == p[i + 1 + k];
    }
  }

  /** A sequence is its prefix up to `k` followed by the rest. */
  lemma SplitAt<T>(s: seq<T>, k: int)
    requires 0 <= k <= |s|
    ensures s[..k] + s[k..] == s
  {
  }

  lemma StemSuffix(p: string)
    ensures Stem(p) + Suffix(p) == Name(p)
  {
    var n := Name(p);
    var j := LastIndexOf(n, '.');
    if 0 < j < |n| - 1 {
      assert Suffix(p) == n[j..];
      assert n[..j] + n[j..] == n;
    } else {
      assert Suffix(p) == "";
    }
  }

  /** A path made of a prefix ending in '/' (or empty) and a tail without
      '/' has that tail as its name. */
  lemma ChildTail(pre: string, tail: string)
    requires pre == "" || pre[|pre| - 1] == '/'
    requires forall k :: 0 <= k < |tail| ==> tail[k] != '/'
    ensures Name(pre + tail) == tail
  {
    var q := pre + tail;
    forall j | |pre| <= j < |q|
      ensures q[j] != '/'
    {
      assert q[j] == tail[j - |pre|];
    }
    var i := LastIndexOf(q, '/');
    assert i < |pre|;
    if pre != "" {
      assert q[|pre| - 1] == '/';
    }
    assert i == |pre| - 1;
    assert q[|pre|..] == tail;
  }

  /** Joining a name without '/' onto a directory gives a path whose name
      is that name. */
  lemma ChildName(dir: string, name: string)
    requires forall k :: 0 <= k < |name| ==> name[k] != '/'
    ensures Name(Child(dir, name)) == name
  {
    ChildTail(dir + "/", name);
    assert Child(dir, name) == (dir + "/") + name;
  }

  /** Swapping in a suffix `s` made of a '.' and at least one further
      character, none of them '.' or '/', on a path with a non-empty stem
      keeps the stem and makes `s` the new suffix. */
  lemma WithSuffixSwaps(p: string, s: string)
    requires Stem(p) != ""
    requires |s| >= 2 && s[0] == '.'
    requires forall k :: 1 <= k < |s| ==> s[k] != '.' && s[k] != '/'
    ensures Name(WithSuffix(p, s)) == Stem(p) + s
    ensures Suffix(WithSuffix(p, s)) == s
    ensures Stem(WithSuffix(p, s)) == Stem(p)
  {
    NameParts(p);
    var stem := Stem(p);
    var pre := p[..|p| - |Name(p)|];
    WithSuffixSplit(p, s);
    DirPrefix(p);
    SlashFree(stem, s, Name(p));
    ChildTail(pre, stem + s);
    DottedName(WithSuffix(p, s), stem, s);
  }

  /** `with_suffix` keeps everything before the name, then the stem. */
  lemma WithSuffixSplit(p: string, s: string)
    ensures WithSuffix(p, s) == p[..|p| - |Name(p)|] + (Stem(p) + s)
  {
    var n := Name(p);
    var x := Suffix(p);
    var i := LastIndexOf(p, '/');
    assert n == p[i + 1..];
    assert Stem(p) == n[..|n| - |x|];
    assert n[..|n| - |x|] == p[i + 1..|p| - |x|];
    assert p[..|p| - |x|] == p[..i + 1] + p[i + 1..|p| - |x|];
  }

  /** What precedes the name is empty or ends in '/'. */
  lemma DirPrefix(p: string)
    ensures var pre := p[..|p| - |Name(p)|]; pre == "" || pre[|pre| - 1] == '/'
  {
    var i := LastIndexOf(p, '/');
    assert |p[..|p| - |Name(p)|]| == i + 1;
  }

  /** A prefix of a name without '/' followed by a suffix without '/' has
      no '/'. */
  lemma SlashFree(stem: string, s: string, name: string)
    requires stem <= name
    requires forall k :: 0 <= k < |name| ==> name[k] != '/'
    requires |s| > 0 && s[0] != '/'
    requires forall k :: 1 <= k < |s| ==> s[k] != '/'
    ensures forall k :: 0 <= k < |stem + s| ==> (stem + s)[k] != '/'
  {
    var n := stem + s;
    forall k | 0 <= k < |n|
      ensures n[k] != '/'
    {
      if k < |stem| {
        assert n[k] == name[k];
      } else {
        assert n[k] == s[k - |stem|];
      }
    }
  }

  /** A path named by a non-empty stem and a dotted suffix has that suffix
      and that stem. */
  lemma DottedName(q: string, stem: string, s: string)
    requires Name(q) == stem + s
    requires stem != ""
    requires |s| >= 2 && s[0] == '.'
    requires forall k :: 1 <= k < |s| ==> s[k] != '.'
    ensures Suffix(q) == s && Stem(q) == stem
  {
    var n := stem + s;
    forall j | |stem| < j < |n|
      ensures n[j] != '.'
    {
      assert n[j] == s[j - |stem|];
    }
    var j := LastIndexOf(n, '.');
    assert n[|stem|] == '.';
    assert j == |stem|;
    assert n[j..] == s;
    assert n[..j] == stem;
  }
}