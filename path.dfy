/**
 * PHP's `pathinfo($path, PATHINFO_BASENAME)`, which the thumbnail code uses to name the
 * local copy of a remote thumbnail: the last run of characters that are not `/`, ignoring
 * slashes at the end, and the empty string when there is none.
 */
module PathName {

  /** `s` without the slashes at its end. */
  function TrimTrailingSlashes(s: string): (r: string)
    ensures r <= s
    ensures r == [] || r[|r| - 1] != '/'
    ensures forall i | |r| <= i < |s| :: s[i] == '/'
    decreases |s|
  {
    if |s| > 0 && s[|s| - 1] == '/' then TrimTrailingSlashes(s[..|s| - 1]) else s
  }

  /** `dir/name` splits back into `dir`, the slash and `name`. */
  lemma JoinParts(dir: string, name: string)
    ensures var p := dir + "/" + name;
            |p| > |dir| && p[..|dir|] == dir && p[|dir|] == '/' && p[|dir| + 1..] == name
  {
    var p := dir + "/" + name;
    assert p[|dir| + 1..] == name;
  }

  /** A slash added at the end is trimmed away again: `dir/` and `dir` name the same entry. */
  lemma TrimAppendedSlash(s: string)
    ensures TrimTrailingSlashes(s + "/") == TrimTrailingSlashes(s)
  {
    assert (s + "/")[..|s|] == s;
  }

  /** The part of `s` after its last slash (all of `s` when it has none). */
  function LastSegment(s: string): (r: string)
    ensures |r| <= |s| && s[|s| - |r|..] == r
    ensures forall i | 0 <= i < |r| :: r[i] != '/'
    ensures |r| < |s| ==> s[|s| - |r| - 1] == '/'
    decreases |s|
  {
    if |s| == 0 || s[|s| - 1] == '/' then [] else LastSegment(s[..|s| - 1]) + [s[|s| - 1]]
  }

  /** The base name of a path or URL, as PHP computes it on `/`-separated text. */
  function Basename(s: string): (r: string)
    ensures forall i | 0 <= i < |r| :: r[i] != '/'
  {
    LastSegment(TrimTrailingSlashes(s))
  }

  /** A name without slashes is its own last segment. */
  lemma {:induction false} LastSegmentOfName(name: string)
    requires forall i | 0 <= i < |name| :: name[i] != '/'
    ensures LastSegment(name) == name
    decreases |name|
  {
    if |name| > 0 {
      LastSegmentOfName(name[..|name| - 1]);
      assert name == name[..|name| - 1] + [name[|name| - 1]];
    }
  }

  /** Whatever precedes the last slash does not matter to the last segment. */
  lemma {:induction false} LastSegmentAfterSlash(dir: string, name: string)
    requires forall i | 0 <= i < |name| :: name[i] != '/'
    ensures LastSegment(dir + "/" + name) == name
    decreases |name|
  {
    var s := dir + "/" + name;
    if |name| == 0 {
      assert s[|s| - 1] == '/';
    } else {
      var init := name[..|name| - 1];
      LastSegmentAfterSlash(dir, init);
      assert s[..|s| - 1] == dir + "/" + init;
      assert name == init + [name[|name| - 1]];
    }
  }

  /** The base name of `dir/name` is `name`, for a non-empty name without slashes. */
  lemma BasenameOfJoin(dir: string, name: string)
    requires name != [] && forall i | 0 <= i < |name| :: name[i] != '/'
    ensures Basename(dir + "/" + name) == name
  {
    var s := dir + "/" + name;
    assert TrimTrailingSlashes(s) == s;
    LastSegmentAfterSlash(dir, name);
  }

  /** Taking the base name twice changes nothing. */
  lemma BasenameIdempotent(s: string)
    ensures Basename(Basename(s)) == Basename(s)
  {
    var b := Basename(s);
    assert b == [] || b[|b| - 1] != '/';
    assert TrimTrailingSlashes(b) == b;
    LastSegmentOfName(b);
  }
}
