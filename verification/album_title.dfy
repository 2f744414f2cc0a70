/** The album path's `const [album, artist] = data.title.split(" by ")`: the oEmbed title is
    split at every " by " and only the first two pieces are kept. */
module AlbumTitle {
  import opened Text
  import opened JsValues

  const By := " by "

  /** The two names destructured from the split title; a missing second piece is `undefined`. */
  datatype AlbumAndArtist = AlbumAndArtist(album: string, artist: JsValue)

  /** The split and the destructuring of the album path. */
  function SplitAlbumTitle(title: string): (r: AlbumAndArtist)
    ensures r.album <= title
    ensures r.artist.Undefined? ==> r.album == title
  {
    SplitIsSplit(title, By);
    var pieces := Split(title, By);
    AlbumAndArtist(pieces[0], if |pieces| >= 2 then Str(pieces[1]) else Undefined)
  }

  /** With a separator present, the first piece is everything before the leftmost one. */
  lemma FirstPiece(title: string, pieces: seq<string>)
    requires IsSplit(title, By, pieces) && |pieces| >= 2
    ensures title == pieces[0] + By + Join(pieces[1..], By)
    ensures OccursAt(title, By, |pieces[0]|)
    ensures forall j: nat :: j < |pieces[0]| ==> !OccursAt(title, By, j)
  {
    var head := pieces[0];
    assert title == head + By + Join(pieces[1..], By);
    assert head + By <= title;
    assert title[|head|..|head| + |By|] == By;
    forall j: nat | j < |head|
      ensures !OccursAt(title, By, j)
    {
      OccursInPrefix(title, head + By, By, j);
    }
  }

  /** The second piece runs from the leftmost separator to the next one, or to the end: no
      separator starts inside it, and one starts right after it unless the title ends there. */
  lemma SecondPiece(title: string, pieces: seq<string>)
    requires IsSplit(title, By, pieces) && |pieces| >= 2
    ensures pieces[0] + By + pieces[1] <= title
    ensures !Contains(pieces[1], By)
    ensures var s := |pieces[0] + By|;
      forall j: nat :: s <= j < s + |pieces[1]| ==> !OccursAt(title, By, j)
    ensures var n := |pieces[0] + By + pieces[1]|;
      n == |title| || OccursAt(title, By, n)
  {
    var head := pieces[0];
    var second := pieces[1];
    var s := |head + By|;
    assert title == head + By + Join(pieces[1..], By);
    var u := title[s..];
    assert u == Join(pieces[1..], By);
    if |pieces| == 2 {
      assert pieces[1..] == [second];
      assert u == second;
      assert title == head + By + second;
      forall j: nat | s <= j < s + |second|
        ensures !OccursAt(title, By, j)
      {
        OccursInSuffix(title, s, By, j - s);
      }
    } else {
      assert pieces[1..][1..] == pieces[2..];
      var more := Join(pieces[2..], By);
      assert u == second + By + more;
      assert title == head + By + second + By + more;
      SepFollowsFirstExcludes(second, By);
      var n := |head + By + second|;
      assert title[n..n + |By|] == By;
      assert second + By <= u;
      forall j: nat | s <= j < s + |second|
        ensures !OccursAt(title, By, j)
      {
        OccursInSuffix(title, s, By, j - s);
        OccursInPrefix(u, second + By, By, j - s);
      }
    }
  }

  /** What the two names are: the album runs up to the leftmost " by "; the artist is
      `undefined` exactly when there is none, and otherwise runs up to the next " by " or to
      the end, with no " by " starting inside it; whatever follows a second separator is
      dropped. */
  lemma SplitAlbumTitleShape(title: string)
    ensures SplitAlbumTitle(title).artist.Undefined? <==> !Contains(title, By)
    ensures SplitAlbumTitle(title).artist.Undefined? ==> SplitAlbumTitle(title).album == title
    ensures forall j: nat :: j < |SplitAlbumTitle(title).album| ==> !OccursAt(title, By, j)
    ensures var r := SplitAlbumTitle(title);
      r.artist.Str? ==>
        && r.album + By + r.artist.s <= title
        && !Contains(r.artist.s, By)
        && (forall j: nat :: |r.album + By| <= j < |r.album + By + r.artist.s| ==> !OccursAt(title, By, j))
        && (|r.album + By + r.artist.s| == |title| || OccursAt(title, By, |r.album + By + r.artist.s|))
  {
    var pieces := Split(title, By);
    SplitIsSplit(title, By);
    if |pieces| == 1 {
      assert title == pieces[0];
    } else {
      FirstPiece(title, pieces);
      SecondPiece(title, pieces);
    }
  }

  /** A title without the separator is all album, with an `undefined` artist. */
  lemma NoSeparatorAllAlbum(title: string)
    requires !Contains(title, By)
    ensures SplitAlbumTitle(title) == AlbumAndArtist(title, Undefined)
  {
    SplitAlbumTitleShape(title);
  }

  /** `album by artist` splits into exactly those two names when no separator begins inside
      the album (even one running into the separator after it) and the artist holds none. */
  lemma OneSeparator(album: string, artist: string)
    requires !Contains(album + " ", By)
    requires !Contains(artist, By)
    ensures SplitAlbumTitle(album + By + artist) == AlbumAndArtist(album, Str(artist))
  {
    var title := album + By + artist;
    var t := album + By;
    assert album + " " <= t;
    forall j: nat | j < |album|
      ensures !OccursAt(t, By, j)
    {
      if j + |By| <= |album| + 1 {
        OccursInPrefix(t, album + " ", By, j);
      } else {
        var d := |album| - j;
        assert d == 1 || d == 2;
        assert t[j..j + |By|][d] == ' ';
        assert By[d] != ' ';
      }
    }
    assert Join([album, artist], By) == title;
    assert IsSplit(title, By, [album, artist]);
    SplitUnique(title, By, [album, artist]);
  }
}
