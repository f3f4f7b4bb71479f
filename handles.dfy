/**
 * Channel handles and their de-duplication, shared by the web pipeline
 * (execution/pipeline.py) and the command line (execution/main.py). A handle is compared
 * in its normal form: leading `@` signs stripped, then lowercased. This module holds the
 * reference definition of which competitors survive; the two loops that compute it are
 * `Pipeline.DeduplicateHandles` and `Cli.DeduplicateHandles`.
 */
module Handles {

  /** `handle.lstrip("@")` */
  function StripAt(handle: string): string
    decreases |handle|
  {
    if handle != [] && handle[0] == '@' then StripAt(handle[1..]) else handle
  }

  /** Stripping removes a prefix made only of `@` signs, and exactly that prefix. */
  lemma {:induction false} StripAtCorrect(handle: string)
    ensures var r := StripAt(handle);
      && |r| <= |handle| && r == handle[|handle| - |r|..]
      && (forall j :: 0 <= j < |handle| - |r| ==> handle[j] == '@')
      && (r == [] || r[0] != '@')
    decreases |handle|
  {
    if handle != [] && handle[0] == '@' {
      StripAtCorrect(handle[1..]);
      var r := StripAt(handle[1..]);
      assert forall j :: 1 <= j < |handle| - |r| ==> handle[j] == handle[1..][j - 1];
    }
  }

  /** Stripping twice is stripping once. */
  lemma StripAtIdempotent(handle: string)
    ensures StripAt(StripAt(handle)) == StripAt(handle)
  {
  }

  /** `str.lower` on one character, for ASCII letters. */
  function LowerChar(c: char): char {
    if 'A' <= c <= 'Z' then (c as int + 32) as char else c
  }

  /** `str.lower`, for ASCII letters. */
  function Lower(s: string): (r: string)
    ensures |r| == |s|
  {
    if s == [] then [] else [LowerChar(s[0])] + Lower(s[1..])
  }

  /** Lowering works character by character. */
  lemma {:induction false} LowerCorrect(s: string)
    ensures forall i :: 0 <= i < |s| ==> Lower(s)[i] == LowerChar(s[i])
  {
    if s != [] {
      LowerCorrect(s[1..]);
    }
  }

  /** `handle.lstrip("@").lower()` */
  function Normalize(handle: string): string {
    Lower(StripAt(handle))
  }

  /** A leading `@` does not change the normal form. */
  lemma NormalizeIgnoresAt(handle: string)
    ensures Normalize("@" + handle) == Normalize(handle)
  {
    assert ("@" + handle)[1..] == handle;
  }

  /** Letter case does not change the normal form. */
  lemma NormalizeIgnoresCase(handle: string)
    ensures Normalize(Lower(handle)) == Normalize(handle)
  {
    LowerStripAt(handle);
    LowerIdempotent(StripAt(handle));
  }

  lemma {:induction false} LowerIdempotent(s: string)
    ensures Lower(Lower(s)) == Lower(s)
  {
    if s != [] {
      LowerIdempotent(s[1..]);
      var c := s[0];
      if 'A' <= c <= 'Z' {
        assert 'a' <= LowerChar(c) <= 'z';
      }
      assert Lower(s)[1..] == Lower(s[1..]);
    }
  }

  lemma {:induction false} LowerStripAt(handle: string)
    ensures StripAt(Lower(handle)) == Lower(StripAt(handle))
  {
    if handle != [] {
      var l := Lower(handle);
      assert l[1..] == Lower(handle[1..]);
      if handle[0] == '@' {
        LowerStripAt(handle[1..]);
      }
    }
  }

  /**
   * Competitor `i` survives de-duplication under the normal form `key`: its form is not the
   * primary channel's and no earlier competitor has the same form. The definitions below
   * are stated for any `key`; the program uses `Normalize`.
   */
  predicate Kept(key: string -> string, channel: string, competitors: seq<string>, i: int)
    requires 0 <= i < |competitors|
  {
    key(competitors[i]) != key(channel)
    && forall j :: 0 <= j < i ==> key(competitors[j]) != key(competitors[i])
  }

  /** The warning reported for a skipped competitor. */
  function DuplicateWarning(key: string -> string, competitor: string): string {
    "Warning: duplicate handle @" + key(competitor) + " — skipping"
  }

  /** The positions among the first `n` competitors that survive. */
  function KeptIndices(key: string -> string, channel: string, competitors: seq<string>, n: nat): seq<nat>
    requires n <= |competitors|
  {
    if n == 0 then []
    else KeptIndices(key, channel, competitors, n - 1) + (if Kept(key, channel, competitors, n - 1) then [n - 1] else [])
  }

  /** The surviving competitors among the first `n`, in input order. */
  function UniqueUpTo(key: string -> string, channel: string, competitors: seq<string>, n: nat): seq<string>
    requires n <= |competitors|
  {
    if n == 0 then []
    else UniqueUpTo(key, channel, competitors, n - 1)
         + (if Kept(key, channel, competitors, n - 1) then [competitors[n - 1]] else [])
  }

  /** The warnings for the skipped competitors among the first `n`, in input order. */
  function WarningsUpTo(key: string -> string, channel: string, competitors: seq<string>, n: nat): seq<string>
    requires n <= |competitors|
  {
    if n == 0 then []
    else WarningsUpTo(key, channel, competitors, n - 1)
         + (if Kept(key, channel, competitors, n - 1) then [] else [DuplicateWarning(key, competitors[n - 1])])
  }

  /** The competitors `deduplicate_handles` returns. */
  function Unique(channel: string, competitors: seq<string>): seq<string> {
    UniqueUpTo(Normalize, channel, competitors, |competitors|)
  }

  /** The warnings `deduplicate_handles` reports, in order. */
  function Warnings(channel: string, competitors: seq<string>): seq<string> {
    WarningsUpTo(Normalize, channel, competitors, |competitors|)
  }

  /** The forms in `seen` after the first `n` competitors: the primary's and theirs. */
  function SeenForms(key: string -> string, channel: string, competitors: seq<string>, n: nat): set<string>
    requires n <= |competitors|
  {
    if n == 0 then {key(channel)}
    else SeenForms(key, channel, competitors, n - 1) + {key(competitors[n - 1])}
  }

  /** Competitor `n` is skipped exactly when its form is already in `seen`. */
  lemma {:induction false} SeenFormsKept(key: string -> string, channel: string, competitors: seq<string>, n: nat)
    requires n < |competitors|
    ensures key(competitors[n]) in SeenForms(key, channel, competitors, n)
            <==> !Kept(key, channel, competitors, n)
  {
    SeenFormsMember(key, channel, competitors, n, key(competitors[n]));
  }

  lemma {:induction false} SeenFormsMember(key: string -> string, channel: string, competitors: seq<string>,
                                           n: nat, x: string)
    requires n <= |competitors|
    ensures x in SeenForms(key, channel, competitors, n)
            <==> x == key(channel) || exists j :: 0 <= j < n && key(competitors[j]) == x
  {
    if n > 0 {
      SeenFormsMember(key, channel, competitors, n - 1, x);
      if key(competitors[n - 1]) == x {
        assert exists j :: 0 <= j < n && key(competitors[j]) == x;
      }
    }
  }

  /** The survivors are the competitors at the kept positions, which ascend. */
  lemma {:induction false} KeptIndicesCorrect(key: string -> string, channel: string, competitors: seq<string>, n: nat)
    requires n <= |competitors|
    ensures var idx := KeptIndices(key, channel, competitors, n); var u := UniqueUpTo(key, channel, competitors, n);
      && |idx| == |u|
      && (forall k :: 0 <= k < |idx| ==> idx[k] < n && u[k] == competitors[idx[k]])
      && (forall k, l :: 0 <= k < l < |idx| ==> idx[k] < idx[l])
      && (forall i :: 0 <= i < n ==> (Kept(key, channel, competitors, i) <==> i in idx))
  {
    if n > 0 {
      KeptIndicesCorrect(key, channel, competitors, n - 1);
    }
  }

  /** Every competitor is either kept or warned about, never both. */
  lemma {:induction false} DedupCountUpTo(key: string -> string, channel: string, competitors: seq<string>, n: nat)
    requires n <= |competitors|
    ensures |UniqueUpTo(key, channel, competitors, n)| + |WarningsUpTo(key, channel, competitors, n)| == n
  {
    if n > 0 {
      DedupCountUpTo(key, channel, competitors, n - 1);
    }
  }

  lemma DedupCount(channel: string, competitors: seq<string>)
    ensures |Unique(channel, competitors)| + |Warnings(channel, competitors)| == |competitors|
  {
    DedupCountUpTo(Normalize, channel, competitors, |competitors|);
  }

  /** The first competitor at or after `j` (and at most `i`) with form `f`. */
  ghost function FirstWithForm(key: string -> string, competitors: seq<string>, f: string, j: nat, i: nat): (r: nat)
    requires j <= i < |competitors| && key(competitors[i]) == f
    requires forall l :: 0 <= l < j ==> key(competitors[l]) != f
    ensures j <= r <= i && key(competitors[r]) == f
    ensures forall l :: 0 <= l < r ==> key(competitors[l]) != f
    decreases i - j
  {
    if key(competitors[j]) == f then j else FirstWithForm(key, competitors, f, j + 1, i)
  }

  /**
   * De-duplication keeps an order-preserving subsequence of the competitors; none has the
   * primary channel's form; their forms are pairwise distinct; the kept positions are
   * exactly the first occurrences of each form other than the primary's, so every such
   * form is represented.
   */
  lemma DedupCorrectBy(key: string -> string, channel: string, competitors: seq<string>)
    ensures var u := UniqueUpTo(key, channel, competitors, |competitors|);
      var idx := KeptIndices(key, channel, competitors, |competitors|);
      && |idx| == |u|
      && (forall k :: 0 <= k < |idx| ==> idx[k] < |competitors| && u[k] == competitors[idx[k]])
      && (forall k, l :: 0 <= k < l < |idx| ==> idx[k] < idx[l])
      && (forall k :: 0 <= k < |u| ==> key(u[k]) != key(channel))
      && (forall k, l :: 0 <= k < l < |u| ==> key(u[k]) != key(u[l]))
      && (forall i :: 0 <= i < |competitors| ==> (Kept(key, channel, competitors, i) <==> i in idx))
      && (forall i :: 0 <= i < |competitors| && key(competitors[i]) != key(channel)
            ==> exists k :: 0 <= k < |u| && key(u[k]) == key(competitors[i]))
  {
    var n := |competitors|;
    var u := UniqueUpTo(key, channel, competitors, n);
    var idx := KeptIndices(key, channel, competitors, n);
    KeptIndicesCorrect(key, channel, competitors, n);
    forall k | 0 <= k < |u| ensures key(u[k]) != key(channel) {
      assert idx[k] in idx;
    }
    forall k, l | 0 <= k < l < |u| ensures key(u[k]) != key(u[l]) {
      assert idx[l] in idx && idx[k] < idx[l];
    }
    forall i | 0 <= i < n && key(competitors[i]) != key(channel)
      ensures exists k :: 0 <= k < |u| && key(u[k]) == key(competitors[i])
    {
      var f := key(competitors[i]);
      var i0 := FirstWithForm(key, competitors, f, 0, i);
      assert Kept(key, channel, competitors, i0);
      var k :| 0 <= k < |idx| && idx[k] == i0;
      assert key(u[k]) == f;
    }
  }

  /** `DedupCorrectBy` for the program's normal form. */
  lemma DedupCorrect(channel: string, competitors: seq<string>)
    ensures var u := Unique(channel, competitors);
      var idx := KeptIndices(Normalize, channel, competitors, |competitors|);
      && |idx| == |u|
      && (forall k :: 0 <= k < |idx| ==> idx[k] < |competitors| && u[k] == competitors[idx[k]])
      && (forall k, l :: 0 <= k < l < |idx| ==> idx[k] < idx[l])
      && (forall k :: 0 <= k < |u| ==> Normalize(u[k]) != Normalize(channel))
      && (forall k, l :: 0 <= k < l < |u| ==> Normalize(u[k]) != Normalize(u[l]))
      && (forall i :: 0 <= i < |competitors| ==> (Kept(Normalize, channel, competitors, i) <==> i in idx))
      && (forall i :: 0 <= i < |competitors| && Normalize(competitors[i]) != Normalize(channel)
            ==> exists k :: 0 <= k < |u| && Normalize(u[k]) == Normalize(competitors[i]))
  {
    DedupCorrectBy(Normalize, channel, competitors);
  }

  /** A list with distinct forms, none the primary's, is left as it is. */
  lemma {:induction false} DedupOfDistinct(key: string -> string, channel: string, s: seq<string>, n: nat)
    requires n <= |s|
    requires forall k :: 0 <= k < |s| ==> key(s[k]) != key(channel)
    requires forall k, l :: 0 <= k < l < |s| ==> key(s[k]) != key(s[l])
    ensures UniqueUpTo(key, channel, s, n) == s[..n]
    ensures WarningsUpTo(key, channel, s, n) == []
  {
    if n > 0 {
      DedupOfDistinct(key, channel, s, n - 1);
      assert Kept(key, channel, s, n - 1);
      assert s[..n] == s[..n - 1] + [s[n - 1]];
    }
  }

  /** De-duplicating a de-duplicated list changes nothing and warns about nothing. */
  lemma DedupIdempotent(channel: string, competitors: seq<string>)
    ensures Unique(channel, Unique(channel, competitors)) == Unique(channel, competitors)
    ensures Warnings(channel, Unique(channel, competitors)) == []
  {
    var u := Unique(channel, competitors);
    DedupCorrectBy(Normalize, channel, competitors);
    DedupOfDistinct(Normalize, channel, u, |u|);
    assert u[..|u|] == u;
  }
}
