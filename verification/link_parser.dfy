/** The link parser of `convertLink`: a literal `includes("open.spotify.com")` guard followed by
    the unanchored pattern
      open\.spotify\.com\/(track|artist|album|playlist)\/([a-zA-Z0-9]+)
    matched with JavaScript's leftmost, backtracking semantics. */
module LinkParser {
  import opened Wrappers
  import opened Text
  import opened Resource

  const Host := "open.spotify.com"

  /** The literal part of the pattern for one alternative: `open.spotify.com/<keyword>/`. */
  function Prefix(k: Kind): string {
    Host + "/" + Keyword(k) + "/"
  }

  /** At index `i` the alternative `k` lets the pattern match: its literal part is there and
      the id class can take at least one character after it. */
  predicate KindMatchesAt(s: string, i: nat, k: Kind) {
    OccursAt(s, Prefix(k), i) && i + |Prefix(k)| < |s| && IsAlnum(s[i + |Prefix(k)|])
  }

  /** The pattern matches at index `i` through some alternative. */
  ghost predicate MatchesAt(s: string, i: nat) {
    exists k :: KindMatchesAt(s, i, k)
  }

  /** A match: where it starts, the captured kind and the captured id. */
  datatype Match = Match(pos: nat, kind: Kind, id: string)

  /** The pattern matches at `i` capturing `k` and `id`: the id is the maximal non-empty run of
      letters and digits right after the literal part. */
  ghost predicate IsMatchAt(s: string, i: nat, k: Kind, id: string) {
    OccursAt(s, Prefix(k), i) && |id| > 0 && IsMaximalAlnumRun(s, i + |Prefix(k)|, id)
  }

  /** The match JavaScript's `String.prototype.match` reports: the one starting leftmost. */
  ghost predicate IsLeftmostMatch(s: string, i: nat, k: Kind, id: string) {
    IsMatchAt(s, i, k, id) && forall q: nat :: q < i ==> !MatchesAt(s, q)
  }

  /** The characters of a prefix that tell the alternatives apart. */
  lemma PrefixShape(k: Kind)
    ensures |Prefix(k)| >= 19 && Prefix(k)[..|Host|] == Host && Prefix(k)[0] == 'o'
    ensures Prefix(k)[17] == Keyword(k)[0] && Prefix(k)[18] == Keyword(k)[1]
  {
    assert Prefix(k) == Host + ("/" + Keyword(k) + "/");
  }

  /** Two alternatives never match at the same index: their keywords differ within two characters. */
  lemma PrefixesExclusive(s: string, i: nat, k1: Kind, k2: Kind)
    requires OccursAt(s, Prefix(k1), i) && OccursAt(s, Prefix(k2), i)
    ensures k1 == k2
  {
    PrefixShape(k1);
    PrefixShape(k2);
    assert s[i + 17] == Prefix(k1)[17] && s[i + 18] == Prefix(k1)[18];
    assert s[i + 17] == Prefix(k2)[17] && s[i + 18] == Prefix(k2)[18];
  }

  /** A match at an index determines its capture groups: the pattern has one reading at `i`. */
  lemma MatchAtUnique(s: string, i: nat, k1: Kind, id1: string, k2: Kind, id2: string)
    requires IsMatchAt(s, i, k1, id1) && IsMatchAt(s, i, k2, id2)
    ensures k1 == k2 && id1 == id2
  {
    PrefixesExclusive(s, i, k1, k2);
    MaximalAlnumRunUnique(s, i + |Prefix(k1)|, id1, id2);
  }

  /** A match with captures is a match. */
  lemma IsMatchAtMatches(s: string, i: nat, k: Kind, id: string)
    requires IsMatchAt(s, i, k, id)
    ensures KindMatchesAt(s, i, k) && MatchesAt(s, i)
  {
    assert s[i + |Prefix(k)|] == id[0];
    assert KindMatchesAt(s, i, k);
  }

  /** The captures for alternative `k` at `i`. */
  function MatchFor(s: string, i: nat, k: Kind): (m: Match)
    requires KindMatchesAt(s, i, k)
    ensures m.pos == i && m.kind == k && IsMatchAt(s, i, k, m.id)
  {
    Match(i, k, AlnumRun(s, i + |Prefix(k)|))
  }

  /** The pattern tried at one index: the alternatives in the order the pattern lists them. */
  function MatchAt(s: string, i: nat): (m: Option<Match>)
    ensures m.None? <==> !MatchesAt(s, i)
    ensures m.Some? ==> m.value.pos == i && IsMatchAt(s, i, m.value.kind, m.value.id)
  {
    if KindMatchesAt(s, i, Track) then Some(MatchFor(s, i, Track))
    else if KindMatchesAt(s, i, Artist) then Some(MatchFor(s, i, Artist))
    else if KindMatchesAt(s, i, Album) then Some(MatchFor(s, i, Album))
    else if KindMatchesAt(s, i, Playlist) then Some(MatchFor(s, i, Playlist))
    else None
  }

  /** The unanchored search: try each start index from `from` onwards, stopping at the first
      that matches. */
  function FindMatch(s: string, from: nat): (r: Option<Match>)
    requires from <= |s|
    decreases |s| - from
    ensures r.Some? ==> from <= r.value.pos && IsMatchAt(s, r.value.pos, r.value.kind, r.value.id)
    ensures forall q: nat :: from <= q && (r.None? || q < r.value.pos) ==> !MatchesAt(s, q)
  {
    match MatchAt(s, from)
    case Some(m) => Some(m)
    case None => if from == |s| then None else FindMatch(s, from + 1)
  }

  /** What `convertLink` gets out of the input: rejected by the `includes` guard, a thrown
      `TypeError` when `match` returns `null` and is destructured, or the two captures. */
  datatype ParseResult = Invalid | Crash | Parsed(kind: Kind, id: string)

  /** Every match contains the host, so the guard never hides a match. */
  lemma MatchContainsHost(s: string, i: nat)
    requires MatchesAt(s, i)
    ensures Contains(s, Host)
  {
    var k :| KindMatchesAt(s, i, k);
    PrefixShape(k);
    assert s[i..i + |Host|] == s[i..i + |Prefix(k)|][..|Host|];
    assert OccursAt(s, Host, i);
  }

  /** The guard and the pattern of `convertLink`, lines 48-53. */
  function Parse(s: string): (r: ParseResult)
    ensures r.Invalid? <==> !Contains(s, Host)
    ensures r.Crash? <==> Contains(s, Host) && forall q: nat :: !MatchesAt(s, q)
    ensures r.Parsed? ==> |r.id| > 0 && forall j :: 0 <= j < |r.id| ==> IsAlnum(r.id[j])
  {
    if !Includes(s, Host) then Invalid
    else match FindMatch(s, 0)
      case None => Crash
      case Some(m) =>
        IsMatchAtMatches(s, m.pos, m.kind, m.id);
        Parsed(m.kind, m.id)
  }

  /** The input parses exactly when the pattern matches somewhere in it. */
  lemma ParsedIffSomeMatch(s: string)
    ensures Parse(s).Parsed? <==> exists q: nat :: MatchesAt(s, q)
  {
    if q: nat :| MatchesAt(s, q) {
      MatchContainsHost(s, q);
    }
  }

  /** Soundness: a parsed input holds a leftmost match with exactly these captures. */
  lemma ParseSound(s: string)
    requires Parse(s).Parsed?
    ensures exists i: nat :: IsLeftmostMatch(s, i, Parse(s).kind, Parse(s).id)
  {
    var m := FindMatch(s, 0).value;
    assert IsLeftmostMatch(s, m.pos, m.kind, m.id);
  }

  /** Completeness: a leftmost match is what the parser reports. */
  lemma ParseComplete(s: string, i: nat, k: Kind, id: string)
    requires IsLeftmostMatch(s, i, k, id)
    ensures Parse(s) == Parsed(k, id)
  {
    IsMatchAtMatches(s, i, k, id);
    MatchContainsHost(s, i);
    assert Includes(s, Host);
    var r := FindMatch(s, 0);
    assert r.Some?;
    var m := r.value;
    IsMatchAtMatches(s, m.pos, m.kind, m.id);
    assert m.pos == i;
    MatchAtUnique(s, i, k, id, m.kind, m.id);
    assert Parse(s) == Parsed(m.kind, m.id);
  }

  /** The parse is the leftmost match with its maximal id, and nothing else: both directions. */
  lemma ParseCharacterized(s: string, k: Kind, id: string)
    ensures Parse(s) == Parsed(k, id) <==> exists i: nat :: IsLeftmostMatch(s, i, k, id)
  {
    if Parse(s) == Parsed(k, id) {
      ParseSound(s);
    }
    if i: nat :| IsLeftmostMatch(s, i, k, id) {
      ParseComplete(s, i, k, id);
    }
  }

  /** A link whose id is followed by a non-alphanumeric character (such as the `?` of a query
      string) or by nothing parses to exactly that id, provided nothing before the host could
      start a match. */
  lemma ParseLink(lead: string, k: Kind, id: string, trail: string)
    requires forall j :: 0 <= j < |lead| ==> lead[j] != 'o'
    requires |id| > 0 && forall j :: 0 <= j < |id| ==> IsAlnum(id[j])
    requires trail == [] || !IsAlnum(trail[0])
    ensures Parse(lead + Prefix(k) + id + trail) == Parsed(k, id)
  {
    var s := lead + Prefix(k) + id + trail;
    var i := |lead|;
    PrefixShape(k);
    assert s[i..i + |Prefix(k)|] == Prefix(k);
    var j := i + |Prefix(k)|;
    assert s[j..j + |id|] == id;
    assert j + |id| == |s| || s[j + |id|] == trail[0];
    assert IsMatchAt(s, i, k, id);
    forall q: nat | q < i
      ensures !MatchesAt(s, q)
    {
      forall k': Kind
        ensures !KindMatchesAt(s, q, k')
      {
        PrefixShape(k');
        assert s[q] == lead[q];
      }
    }
    ParseComplete(s, i, k, id);
  }
}
