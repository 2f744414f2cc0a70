/** String primitives used by the converter: substring search (`String.prototype.includes`,
    `indexOf`), the maximal run of `[a-zA-Z0-9]` a greedy regular-expression class takes,
    and `String.prototype.split` with a non-empty string separator together with its inverse. */
module Text {
  import opened Wrappers

  /** The regular-expression class `[a-zA-Z0-9]`: ASCII letters and digits only. */
  predicate IsAlnum(c: char) {
    ('a' <= c <= 'z') || ('A' <= c <= 'Z') || ('0' <= c <= '9')
  }

  /** `pat` occurs in `s` starting at index `i`. */
  predicate OccursAt(s: string, pat: string, i: nat) {
    i + |pat| <= |s| && s[i..i + |pat|] == pat
  }

  /** `pat` occurs somewhere in `s`. */
  ghost predicate Contains(s: string, pat: string) {
    exists i: nat :: OccursAt(s, pat, i)
  }

  /** The leftmost index at or after `from` where `pat` occurs, if any. */
  function IndexOf(s: string, pat: string, from: nat): (r: Option<nat>)
    decreases |s| - from
    ensures r.Some? ==> from <= r.value && OccursAt(s, pat, r.value)
    ensures forall j: nat :: from <= j && (r.None? || j < r.value) ==> !OccursAt(s, pat, j)
  {
    if |s| < from + |pat| then None
    else if s[from..from + |pat|] == pat then Some(from)
    else IndexOf(s, pat, from + 1)
  }

  /** `String.prototype.includes`. */
  function Includes(s: string, pat: string): (b: bool)
    ensures b <==> Contains(s, pat)
  {
    IndexOf(s, pat, 0).Some?
  }

  /** An occurrence inside a prefix `t` of `s` is an occurrence in `s`, and back. */
  lemma OccursInPrefix(s: string, t: string, pat: string, j: nat)
    requires t <= s
    requires j + |pat| <= |t|
    ensures OccursAt(t, pat, j) <==> OccursAt(s, pat, j)
  {
    assert t[j..j + |pat|] == s[j..j + |pat|];
  }

  /** An occurrence at `k + j` in `s` is an occurrence at `j` in the suffix from `k`, and back. */
  lemma OccursInSuffix(s: string, k: nat, pat: string, j: nat)
    requires k <= |s|
    ensures OccursAt(s, pat, k + j) <==> OccursAt(s[k..], pat, j)
  {
    if k + j + |pat| <= |s| {
      assert s[k..][j..j + |pat|] == s[k + j..k + j + |pat|];
    }
  }

  /** `run` is the longest stretch of `[a-zA-Z0-9]` characters of `s` starting at `j`. */
  ghost predicate IsMaximalAlnumRun(s: string, j: nat, run: string) {
    && j + |run| <= |s|
    && s[j..j + |run|] == run
    && (forall k :: 0 <= k < |run| ==> IsAlnum(run[k]))
    && (j + |run| == |s| || !IsAlnum(s[j + |run|]))
  }

  /** What the greedy class `[a-zA-Z0-9]+` consumes from index `j` (empty when it cannot start). */
  function AlnumRun(s: string, j: nat): (run: string)
    requires j <= |s|
    decreases |s| - j
    ensures IsMaximalAlnumRun(s, j, run)
  {
    if j < |s| && IsAlnum(s[j]) then
      var rest := AlnumRun(s, j + 1);
      assert s[j..j + 1 + |rest|] == [s[j]] + s[j + 1..j + 1 + |rest|];
      [s[j]] + rest
    else
      []
  }

  /** Greedy matching is deterministic: from a given index there is exactly one maximal run. */
  lemma MaximalAlnumRunUnique(s: string, j: nat, r1: string, r2: string)
    requires IsMaximalAlnumRun(s, j, r1) && IsMaximalAlnumRun(s, j, r2)
    ensures r1 == r2
  {
    assert forall k :: 0 <= k < |r1| ==> s[j + k] == r1[k];
    assert forall k :: 0 <= k < |r2| ==> s[j + k] == r2[k];
  }

  /** `Array.prototype.join`: the pieces with `sep` between consecutive ones. */
  function Join(pieces: seq<string>, sep: string): string
  {
    if |pieces| == 0 then ""
    else if |pieces| == 1 then pieces[0]
    else pieces[0] + sep + Join(pieces[1..], sep)
  }

  /** `sep` placed right after `piece` is the first occurrence of `sep` in `piece + sep`. */
  ghost predicate SepFollowsFirst(piece: string, sep: string) {
    forall j: nat :: j < |piece| ==> !OccursAt(piece + sep, sep, j)
  }

  /** `pieces` is what a left-to-right split of `s` at `sep` produces: joining them gives `s`
      back, every separator consumed was the first one remaining, and the last piece holds none. */
  ghost predicate IsSplit(s: string, sep: string, pieces: seq<string>) {
    && |pieces| >= 1
    && Join(pieces, sep) == s
    && (forall k :: 0 <= k < |pieces| - 1 ==> SepFollowsFirst(pieces[k], sep))
    && !Contains(pieces[|pieces| - 1], sep)
  }

  /** `String.prototype.split` with a non-empty string separator and no limit. */
  function Split(s: string, sep: string): (pieces: seq<string>)
    requires |sep| > 0
    decreases |s|
    ensures |pieces| >= 1
  {
    match IndexOf(s, sep, 0)
    case None => [s]
    case Some(k) => [s[..k]] + Split(s[k + |sep|..], sep)
  }

  /** Prepending a piece that ends at the first separator of `s` to a split of the remainder
      gives a split of `s`. */
  lemma ConsIsSplit(s: string, sep: string, k: nat, rest: seq<string>)
    requires OccursAt(s, sep, k)
    requires forall j: nat :: j < k ==> !OccursAt(s, sep, j)
    requires IsSplit(s[k + |sep|..], sep, rest)
    ensures IsSplit(s, sep, [s[..k]] + rest)
  {
    var tail := s[k + |sep|..];
    var pieces := [s[..k]] + rest;
    assert pieces[1..] == rest;
    assert s == s[..k] + s[k..k + |sep|] + tail;
    assert Join(pieces, sep) == s;
    assert s[..k] + sep <= s;
    forall j: nat | j < k
      ensures !OccursAt(s[..k] + sep, sep, j)
    {
      OccursInPrefix(s, s[..k] + sep, sep, j);
    }
    forall i | 0 <= i < |pieces| - 1
      ensures SepFollowsFirst(pieces[i], sep)
    {
      if i > 0 {
        assert pieces[i] == rest[i - 1];
      }
    }
    assert pieces[|pieces| - 1] == rest[|rest| - 1];
  }

  /** Splitting produces a decomposition of the kind `IsSplit` describes. */
  lemma {:induction false} SplitIsSplit(s: string, sep: string)
    requires |sep| > 0
    ensures IsSplit(s, sep, Split(s, sep))
    decreases |s|
  {
    match IndexOf(s, sep, 0)
    case None =>
      assert Split(s, sep) == [s];
    case Some(k) =>
      var tail := s[k + |sep|..];
      SplitIsSplit(tail, sep);
      ConsIsSplit(s, sep, k, Split(tail, sep));
  }

  /** A piece that ends at the first separator contains no separator of its own. */
  lemma SepFollowsFirstExcludes(piece: string, sep: string)
    requires |sep| > 0
    requires SepFollowsFirst(piece, sep)
    ensures !Contains(piece, sep)
  {
    if Contains(piece, sep) {
      var j: nat :| OccursAt(piece, sep, j);
      assert piece <= piece + sep;
      OccursInPrefix(piece + sep, piece, sep, j);
      assert false;
    }
  }

  /** Split is the only decomposition of that kind: `IsSplit` characterises it exactly. */
  lemma {:induction false} SplitUnique(s: string, sep: string, pieces: seq<string>)
    requires |sep| > 0
    requires IsSplit(s, sep, pieces)
    ensures pieces == Split(s, sep)
    decreases |s|
  {
    if |pieces| == 1 {
      assert s == pieces[0];
      assert IndexOf(s, sep, 0).None? by {
        if IndexOf(s, sep, 0).Some? {
          assert false;
        }
      }
    } else {
      var head := pieces[0];
      var rest := pieces[1..];
      var tail := Join(rest, sep);
      assert s == head + sep + tail;
      assert OccursAt(s, sep, |head|) by {
        assert s[|head|..|head| + |sep|] == sep;
      }
      assert SepFollowsFirst(head, sep);
      assert s[..|head|] == head;
      assert IndexOf(s, sep, 0) == Some(|head|) by {
        forall j: nat | j < |head|
          ensures !OccursAt(s, sep, j)
        {
          assert head + sep <= s;
          OccursInPrefix(s, head + sep, sep, j);
        }
      }
      assert s[|head| + |sep|..] == tail;
      assert IsSplit(tail, sep, rest) by {
        forall i | 0 <= i < |rest| - 1
          ensures SepFollowsFirst(rest[i], sep)
        {
          assert rest[i] == pieces[i + 1];
        }
        assert rest[|rest| - 1] == pieces[|pieces| - 1];
      }
      SplitUnique(tail, sep, rest);
      assert pieces == [head] + rest;
    }
  }

  /** Both directions: a sequence of pieces is the result of `Split` exactly when it is a
      left-to-right split of `s`. */
  lemma SplitCharacterized(s: string, sep: string, pieces: seq<string>)
    requires |sep| > 0
    ensures pieces == Split(s, sep) <==> IsSplit(s, sep, pieces)
  {
    SplitIsSplit(s, sep);
    if IsSplit(s, sep, pieces) {
      SplitUnique(s, sep, pieces);
    }
  }
}

/** The two JavaScript values a string-typed variable of the converter can hold. */
module JsValues {

  datatype JsValue = Undefined | Str(s: string)

  /** Template-literal interpolation `${v}`: `undefined` prints as the word "undefined". */
  function Interpolate(v: JsValue): (r: string)
    ensures v.Str? ==> r == v.s
    ensures v.Undefined? ==> r == "undefined"
  {
    match v
    case Undefined => "undefined"
    case Str(s) => s
  }

  /** A thrown `Error`, known by its message. */
  datatype JsError = JsError(message: string)

  /** JavaScript truthiness of a string-or-undefined value: only a non-empty string is truthy. */
  function Truthy(v: JsValue): (b: bool)
    ensures b <==> v != Undefined && v != Str("")
  {
    v.Str? && |v.s| > 0
  }
}
