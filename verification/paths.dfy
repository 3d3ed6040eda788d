/** Pairing of image and label files: the label path is the image path with
    every occurrence of "images" replaced by "annotations". */
module Paths {

  type Path = string

  const ImagesDir: string := "images"
  const AnnotationsDir: string := "annotations"

  /** An occurrence of `pat` begins at position `i` of `s`. */
  predicate MatchAt(s: string, pat: string, i: int) {
    0 <= i && i + |pat| <= |s| && s[i..i + |pat|] == pat
  }

  /** Python's `s.replace(pat, rep)` for a non-empty `pat`: every occurrence,
      found scanning left to right without overlaps, is replaced. */
  function ReplaceAll(s: string, pat: string, rep: string): string
    requires |pat| > 0
    decreases |s|
  {
    if |s| < |pat| then s
    else if s[..|pat|] == pat then rep + ReplaceAll(s[|pat|..], pat, rep)
    else [s[0]] + ReplaceAll(s[1..], pat, rep)
  }

  /** A prefix in which no occurrence begins is copied unchanged. */
  lemma {:induction false} ReplaceAllSkipsPrefix(a: string, b: string, pat: string, rep: string)
    requires |pat| > 0
    requires forall i :: 0 <= i < |a| ==> !MatchAt(a + b, pat, i)
    ensures ReplaceAll(a + b, pat, rep) == a + ReplaceAll(b, pat, rep)
  {
    var s := a + b;
    if |a| == 0 {
      assert s == b;
    } else if |s| < |pat| {
      assert ReplaceAll(b, pat, rep) == b;
    } else {
      assert !MatchAt(s, pat, 0);
      assert s[..|pat|] != pat;
      assert s[1..] == a[1..] + b;
      forall i | 0 <= i < |a| - 1
        ensures !MatchAt(a[1..] + b, pat, i)
      {
        assert !MatchAt(s, pat, i + 1);
        if i + |pat| <= |a[1..] + b| {
          assert s[i + 1..i + 1 + |pat|] == (a[1..] + b)[i..i + |pat|];
        }
      }
      ReplaceAllSkipsPrefix(a[1..], b, pat, rep);
      assert [a[0]] + a[1..] == a;
    }
  }

  /** An occurrence at the front is replaced and the scan resumes after it. */
  lemma ReplaceAllAtMatch(b: string, pat: string, rep: string)
    requires |pat| > 0
    ensures ReplaceAll(pat + b, pat, rep) == rep + ReplaceAll(b, pat, rep)
  {
    assert (pat + b)[..|pat|] == pat;
    assert (pat + b)[|pat|..] == b;
  }

  /** A string with no occurrence is left unchanged. */
  lemma ReplaceAllNoMatch(s: string, pat: string, rep: string)
    requires |pat| > 0
    requires forall i :: !MatchAt(s, pat, i)
    ensures ReplaceAll(s, pat, rep) == s
  {
    assert s + [] == s;
    ReplaceAllSkipsPrefix(s, [], pat, rep);
  }

  /** The label file of an image file: its path with every occurrence of
      "images" replaced by "annotations". */
  function LabelPath(imagePath: Path): Path {
    ReplaceAll(imagePath, ImagesDir, AnnotationsDir)
  }

  /** No occurrence of "images" can straddle a '/'. */
  lemma NoMatchAcrossSlash(s: string, i: int, k: int)
    requires 0 <= k < |s| && s[k] == '/'
    requires i <= k < i + |ImagesDir|
    ensures !MatchAt(s, ImagesDir, i)
  {
    if 0 <= i && i + |ImagesDir| <= |s| {
      assert s[i..i + |ImagesDir|][k - i] == s[k];
      assert ImagesDir[k - i] != '/';
    }
  }

  /** The first occurrence of "images" after a root free of it, at a directory
      boundary, becomes "annotations", and the scan resumes behind it. */
  lemma {:induction false} LabelPathAfterRoot(root: string, rest: string)
    requires forall i :: !MatchAt(root, ImagesDir, i)
    ensures LabelPath(root + "/images" + rest) == root + "/annotations" + LabelPath(rest)
  {
    var a := root + "/";
    var b := ImagesDir + rest;
    assert root + "/images" + rest == a + b;
    forall i | 0 <= i < |a|
      ensures !MatchAt(a + b, ImagesDir, i)
    {
      if i + |ImagesDir| <= |root| {
        assert (a + b)[i..i + |ImagesDir|] == root[i..i + |ImagesDir|];
        assert !MatchAt(root, ImagesDir, i);
      } else {
        NoMatchAcrossSlash(a + b, i, |root|);
      }
    }
    ReplaceAllSkipsPrefix(a, b, ImagesDir, AnnotationsDir);
    ReplaceAllAtMatch(rest, ImagesDir, AnnotationsDir);
    assert root + "/annotations" + LabelPath(rest) == a + (AnnotationsDir + LabelPath(rest));
  }

  /** A "/"-led name free of "images" is its own label path. */
  lemma SlashNameUnchanged(name: string)
    requires forall i :: !MatchAt(name, ImagesDir, i)
    ensures LabelPath("/" + name) == "/" + name
  {
    var tail := "/" + name;
    forall i | true
      ensures !MatchAt(tail, ImagesDir, i)
    {
      if i == 0 {
        NoMatchAcrossSlash(tail, 0, 0);
      } else if 0 < i && i + |ImagesDir| <= |tail| {
        assert tail[i..i + |ImagesDir|] == name[i - 1..i - 1 + |ImagesDir|];
        assert !MatchAt(name, ImagesDir, i - 1);
      }
    }
    ReplaceAllNoMatch(tail, ImagesDir, AnnotationsDir);
  }

  /** An image `root/images/name`, with neither `root` nor `name` containing
      "images", pairs with the label `root/annotations/name`: same base name in
      the sibling directory. */
  lemma LabelPathSiblingDir(root: string, name: string)
    requires forall i :: !MatchAt(root, ImagesDir, i)
    requires forall i :: !MatchAt(name, ImagesDir, i)
    ensures LabelPath(root + "/images/" + name) == root + "/annotations/" + name
  {
    assert root + "/images/" + name == root + "/images" + ("/" + name);
    LabelPathAfterRoot(root, "/" + name);
    SlashNameUnchanged(name);
    assert root + "/annotations" + ("/" + name) == root + "/annotations/" + name;
  }

  /** Replace-all also rewrites a data root that itself ends in "images": the
      label of `root/images/images/name` is looked up under
      `root/annotations/annotations/name`, not `root/images/annotations/name`. */
  lemma LabelPathRewritesRoot(root: string, name: string)
    requires forall i :: !MatchAt(root, ImagesDir, i)
    requires forall i :: !MatchAt(name, ImagesDir, i)
    ensures LabelPath(root + "/images/images/" + name) == root + "/annotations/annotations/" + name
  {
    assert root + "/images/images/" + name == root + "/images" + ("/images" + ("/" + name));
    LabelPathAfterRoot(root, "/images" + ("/" + name));
    assert forall i :: !MatchAt("", ImagesDir, i);
    assert "" + "/images" + ("/" + name) == "/images" + ("/" + name);
    LabelPathAfterRoot("", "/" + name);
    SlashNameUnchanged(name);
    assert root + "/annotations" + ("" + "/annotations" + ("/" + name)) == root + "/annotations/annotations/" + name;
  }
}
