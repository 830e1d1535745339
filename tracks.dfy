/** The projector: flattens the raw entries of one page of the saved-tracks
    listing into the records that end up in the export file
    (`prepareTrackData` in main.ts). */
module Tracks {

  /** The separator `prepareTrackData` puts between artist names. */
  const ArtistSeparator: string := ", "

  datatype Artist = Artist(name: string)

  datatype Album = Album(name: string)

  /** The part of the provider's full track object that the projector reads.
      `externalIds` maps an identifier scheme (isrc, ean, upc) to its value. */
  datatype Track = Track(id: string, name: string, album: Album, artists: seq<Artist>,
                         externalIds: map<string, string>)

  /** One raw entry of a page: a saved track wraps the track object. */
  datatype SavedTrack = SavedTrack(track: Track)

  /** One response of the paginated listing. `next` records only whether the
      response names a following page; `total` is the library size the
      provider reports. */
  datatype Page = Page(items: seq<SavedTrack>, total: nat, next: bool)

  /** A flattened output record. Its last field is emitted under the key
      `external_ids` (the declared type misspells it `extternal_ids`). */
  datatype TrackItem = TrackItem(id: string, name: string, album: string, artists: string,
                                 externalIds: map<string, string>)

  /** The summed lengths of some strings. */
  function TotalLength(names: seq<string>): nat
  {
    if names == [] then 0 else |names[0]| + TotalLength(names[1..])
  }

  /** `Array.prototype.join`: the elements with `sep` between each pair. */
  function Join(names: seq<string>, sep: string): (r: string)
    ensures names == [] ==> r == ""
    ensures names != [] ==> |r| == TotalLength(names) + |sep| * (|names| - 1)
    ensures names != [] ==> r[..|names[0]|] == names[0]
  {
    if |names| == 0 then ""
    else if |names| == 1 then names[0]
    else
      var rest := Join(names[1..], sep);
      assert |sep| * (|names| - 1) == |sep| + |sep| * (|names| - 2);
      names[0] + sep + rest
  }

  /** The names of the artists, in their order. */
  function ArtistNames(artists: seq<Artist>): (r: seq<string>)
    ensures |r| == |artists|
    ensures forall k :: 0 <= k < |r| ==> r[k] == artists[k].name
  {
    seq(|artists|, k requires 0 <= k < |artists| => artists[k].name)
  }

  /** The record made from one raw entry. */
  function ProjectItem(entry: SavedTrack): TrackItem
  {
    var t := entry.track;
    TrackItem(t.id, t.name, t.album.name, Join(ArtistNames(t.artists), ArtistSeparator), t.externalIds)
  }

  /** `prepareTrackData`: one record per raw entry, in the entries' order,
      each carrying its track's id, name and external identifiers
      unchanged, the album's name and the artist names joined with ", ". */
  function PrepareTrackData(page: Page): (r: seq<TrackItem>)
    ensures |r| == |page.items|
    ensures forall k :: 0 <= k < |page.items| ==>
      var t := page.items[k].track;
      && r[k].id == t.id
      && r[k].name == t.name
      && r[k].album == t.album.name
      && r[k].artists == Join(ArtistNames(t.artists), ArtistSeparator)
      && r[k].externalIds == t.externalIds
  {
    seq(|page.items|, k requires 0 <= k < |page.items| => ProjectItem(page.items[k]))
  }

  /** The join of the concrete artist lists: none, one and three artists. */
  lemma JoinExamples()
    ensures Join([], ArtistSeparator) == ""
    ensures Join(["A"], ArtistSeparator) == "A"
    ensures Join(["A", "B", "C"], ArtistSeparator) == "A, B, C"
  {
  }

  /** Joining grows at the back as it does at the front: a name appended
      to the list is appended to the joined string after one separator. */
  lemma {:induction false} JoinSnoc(names: seq<string>, last: string, sep: string)
    ensures Join(names + [last], sep) == if names == [] then last else Join(names, sep) + sep + last
    decreases |names|
  {
    if |names| == 0 {
      assert names + [last] == [last];
    } else if |names| == 1 {
      assert (names + [last])[1..] == [last];
    } else {
      assert (names + [last])[1..] == names[1..] + [last];
      JoinSnoc(names[1..], last, sep);
    }
  }

  /** Whether `s` contains the artist separator somewhere. */
  predicate HasSeparator(s: string)
  {
    exists k :: 0 <= k < |s| - 1 && s[k] == ',' && s[k + 1] == ' '
  }

  /** Splits a joined artist string at every separator, left to right. */
  function SplitArtists(s: string): (r: seq<string>)
    ensures |r| >= 1
    decreases |s|
  {
    if |s| == 0 then [""]
    else if |s| >= 2 && s[0] == ',' && s[1] == ' ' then [""] + SplitArtists(s[2..])
    else
      var rest := SplitArtists(s[1..]);
      [[s[0]] + rest[0]] + rest[1..]
  }

  /** Dropping the first character of a name cannot create a separator. */
  lemma NoSeparatorInTail(name: string)
    requires |name| > 0 && !HasSeparator(name)
    ensures !HasSeparator(name[1..])
  {
  }

  /** A name without a separator splits to itself. */
  lemma {:induction false} SplitSingle(name: string)
    requires !HasSeparator(name)
    ensures SplitArtists(name) == [name]
    decreases |name|
  {
    if |name| > 0 {
      NoSeparatorInTail(name);
      SplitSingle(name[1..]);
      assert [name[0]] + name[1..] == name;
    }
  }

  /** A name without a separator, followed by the separator, is split off
      as the first piece. */
  lemma {:induction false} SplitAfterName(name: string, tail: string)
    requires !HasSeparator(name)
    ensures SplitArtists(name + ArtistSeparator + tail) == [name] + SplitArtists(tail)
    decreases |name|
  {
    var s := name + ArtistSeparator + tail;
    if |name| == 0 {
      assert s[2..] == tail;
    } else {
      NoSeparatorInTail(name);
      assert !(s[0] == ',' && s[1] == ' ') by {
        if |name| == 1 {
          assert s[1] == ',';
        } else {
          assert s[0] == name[0] && s[1] == name[1];
        }
      }
      assert s[1..] == name[1..] + ArtistSeparator + tail;
      SplitAfterName(name[1..], tail);
      assert [name[0]] + name[1..] == name;
    }
  }

  /** The joined artist string loses nothing when no name contains the
      separator: splitting it gives back every name, in order, duplicates
      included. */
  lemma {:induction false} SplitJoin(names: seq<string>)
    requires |names| >= 1
    requires forall k :: 0 <= k < |names| ==> !HasSeparator(names[k])
    ensures SplitArtists(Join(names, ArtistSeparator)) == names
    decreases |names|
  {
    if |names| == 1 {
      SplitSingle(names[0]);
    } else {
      SplitAfterName(names[0], Join(names[1..], ArtistSeparator));
      SplitJoin(names[1..]);
    }
  }

  /** A name that contains the separator makes the join ambiguous: one
      artist "Tyler, The Creator" and the two artists "Tyler" and
      "The Creator" give the same string. The empty list is a second source
      of ambiguity: no artists and one artist with an empty name both join
      to "", which is why `SplitJoin` needs at least one name. */
  lemma JoinAmbiguous()
    ensures Join(["Tyler, The Creator"], ArtistSeparator) == Join(["Tyler", "The Creator"], ArtistSeparator)
    ensures Join([], ArtistSeparator) == Join([""], ArtistSeparator) == ""
    ensures SplitArtists("") == [""]
  {
  }
}
