/** The two standard-library string functions whose results the uploader depends on:
    `strings.Replace(s, old, "", -1)` (key derivation) and `filepath.Ext` on a
    slash-separated path (the 1.0.1 MIME lookup). */
module GoStrings {

  /** `p` occurs in `s` at position `i`. */
  predicate OccursAt(s: string, p: string, i: nat) {
    i + |p| <= |s| && s[i..i + |p|] == p
  }

  /** `strings.Replace(s, p, "", -1)`: scanning left to right, every non-overlapping
      occurrence of `p` is removed; an empty `p` leaves `s` unchanged (Go returns `s`
      when old == new). */
  function RemoveAll(s: string, p: string): (r: string)
    ensures |r| <= |s|
    ensures p != [] && OccursAt(s, p, 0) ==> |r| <= |s| - |p|
    decreases |s|
  {
    if p == [] || |s| < |p| then s
    else if s[..|p|] == p then RemoveAll(s[|p|..], p)
    else [s[0]] + RemoveAll(s[1..], p)
  }

  /** A prefix that never occurs leaves the line unchanged. */
  lemma {:induction false} RemoveAllNoOccurrence(s: string, p: string)
    requires forall i: nat :: !OccursAt(s, p, i)
    ensures RemoveAll(s, p) == s
    decreases |s|
  {
    if p != [] && |s| >= |p| {
      assert !OccursAt(s, p, 0);
      forall i: nat ensures !OccursAt(s[1..], p, i) {
        assert !OccursAt(s, p, i + 1);
      }
      RemoveAllNoOccurrence(s[1..], p);
    }
  }

  /** With an empty prefix nothing is removed. */
  lemma RemoveAllEmptyPrefix(s: string)
    ensures RemoveAll(s, "") == s
  {
  }

  /** A leading occurrence is removed and the scan resumes right after it. */
  lemma RemoveAllLeading(p: string, s: string)
    requires p != []
    ensures RemoveAll(p + s, p) == RemoveAll(s, p)
  {
    assert (p + s)[..|p|] == p;
    assert (p + s)[|p|..] == s;
  }

  /** An occurrence at `i + 1` in `s` is an occurrence at `i` in `s[1..]`. */
  lemma OccursAtShift(s: string, p: string, i: nat)
    requires s != []
    ensures OccursAt(s, p, i + 1) <==> OccursAt(s[1..], p, i)
  {
    if i + 1 + |p| <= |s| {
      assert s[1..][i..i + |p|] == s[i + 1..i + 1 + |p|];
    }
  }

  /** Without an occurrence at the front, the first character is kept. */
  lemma RemoveAllKeepsFirst(s: string, p: string)
    requires p != [] && |p| <= |s| && !OccursAt(s, p, 0)
    ensures RemoveAll(s, p) == [s[0]] + RemoveAll(s[1..], p)
  {
  }

  /** Moving the first character of `s` into the kept text before position `k`. */
  lemma Regroup(s: string, k: nat, x: string, y: string, rest: string)
    requires 0 < k <= |s|
    requires x == [s[0]] + y && y == s[1..][..k - 1] + rest
    ensures x == s[..k] + rest
  {
    assert s[..k] == [s[0]] + s[1..][..k - 1];
  }

  /** The text before the first occurrence of the prefix is kept, that occurrence is
      dropped, and removal goes on in the rest of the line. */
  lemma {:induction false} RemoveAllFirstOccurrence(s: string, p: string, k: nat)
    requires p != [] && OccursAt(s, p, k)
    requires forall i: nat :: i < k ==> !OccursAt(s, p, i)
    ensures RemoveAll(s, p) == s[..k] + RemoveAll(s[k + |p|..], p)
    decreases k
  {
    if k == 0 {
      assert s[..0] == [];
    } else {
      assert !OccursAt(s, p, 0);
      var t := s[1..];
      OccursAtShift(s, p, k - 1);
      forall i: nat | i < k - 1 ensures !OccursAt(t, p, i) {
        OccursAtShift(s, p, i);
      }
      RemoveAllKeepsFirst(s, p);
      RemoveAllFirstOccurrence(t, p, k - 1);
      assert t[k - 1 + |p|..] == s[k + |p|..];
      Regroup(s, k, RemoveAll(s, p), RemoveAll(t, p), RemoveAll(s[k + |p|..], p));
    }
  }

  /** The scan is a single pass: removing "ab" from "aabb" leaves "ab", which still
      contains the prefix. */
  lemma RemoveAllSinglePass()
    ensures RemoveAll("aabb", "ab") == "ab"
  {
    assert "aabb"[..2][1] != "ab"[1];
    assert "aabb"[1..] == "abb";
    assert "abb"[..2] == "ab";
    assert "abb"[2..] == "b";
  }

  /** `filepath.Ext(path)`: the suffix of the last path element starting at its last
      dot, or "" when that element has no dot. */
  function Ext(path: string): (r: string)
    ensures |r| <= |path| && r == path[|path| - |r|..]
    ensures r != [] ==> r[0] == '.'
    ensures forall i :: 0 <= i < |r| ==> r[i] != '/'
    ensures forall i :: 1 <= i < |r| ==> r[i] != '.'
    decreases |path|
  {
    if path == [] then ""
    else
      var c := path[|path| - 1];
      if c == '/' then ""
      else if c == '.' then "."
      else
        var e := Ext(path[..|path| - 1]);
        if e == [] then "" else e + [c]
  }

  /** No extension means no dot after the last slash. */
  lemma {:induction false} ExtEmptyMeansNoDot(path: string, i: nat)
    requires Ext(path) == [] && i < |path| && path[i] == '.'
    ensures exists j :: i < j < |path| && path[j] == '/'
    decreases |path|
  {
    var n := |path| - 1;
    if path[n] != '/' {
      assert path[n] != '.';
      assert i < n;
      ExtEmptyMeansNoDot(path[..n], i);
      var j :| i < j < n && path[..n][j] == '/';
      assert path[j] == '/';
    }
  }
}
