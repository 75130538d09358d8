/**
  The catalog: a `Curator` owns the photographs and the artists in the order
  they were added, and answers every query by scanning those two sequences.
 */
module Catalog {
  import opened Wrappers
  import opened Enumerable
  import opened Records

  // The blocks the queries pass to `find` and `find_all`.

  function PhotoIdIs(id: string): Photograph -> bool
  {
    (p: Photograph) => p.id == id
  }

  function ArtistIdIs(id: string): Artist -> bool
  {
    (a: Artist) => a.id == id
  }

  function TakenBy(artist: Artist): Photograph -> bool
  {
    (p: Photograph) => p.artist_id == artist.id
  }

  function FromCountry(country: string): Artist -> bool
  {
    (a: Artist) => a.country == country
  }

  function HasSeveralPhotos(photos: seq<Photograph>): Artist -> bool
  {
    (a: Artist) => |FindAll(photos, TakenBy(a))| > 1
  }

  function ByArtistAmong(ids: seq<string>): Photograph -> bool
  {
    (p: Photograph) => p.artist_id in ids
  }

  function TakenIn(years: seq<int>): Photograph -> bool
  {
    (p: Photograph) => ToInt(p.year) in years
  }

  /** The join of `photos_taken_by_artists_from`: some artist of that country has the photograph's artist_id. */
  predicate ByArtistFrom(artists: seq<Artist>, country: string, photo: Photograph)
  {
    exists a :: a in artists && a.country == country && a.id == photo.artist_id
  }

  /** Ruby's `(lo..hi).to_a`: the integers from lo up to hi, both included; empty when lo > hi. */
  function RangeToA(lo: int, hi: int): (r: seq<int>)
    ensures |r| == if lo <= hi then hi - lo + 1 else 0
    ensures forall i :: 0 <= i < |r| ==> r[i] == lo + i
    ensures forall x :: x in r <==> lo <= x <= hi
    decreases hi - lo
  {
    if lo > hi then [] else [lo] + RangeToA(lo + 1, hi)
  }

  /** The artist's age when the photograph was taken, both years parsed with `to_i`. */
  function Age(photo: Photograph, artist: Artist): int
  {
    ToInt(photo.year) - ToInt(artist.born)
  }

  /**
    The `inject` of `artists_photographs_by_age`, run over `photos` from first
    to last: each photograph of the artist stores its name under its age,
    replacing whatever an earlier photograph stored there.
   */
  function AgesFrom(photos: seq<Photograph>, artist: Artist): (ages: map<int, string>)
    ensures forall k :: k in ages <==>
              exists i :: 0 <= i < |photos| && photos[i].artist_id == artist.id && Age(photos[i], artist) == k
    decreases |photos|
  {
    if photos == [] then map[]
    else
      var init := photos[..|photos| - 1];
      assert forall i :: 0 <= i < |init| ==> init[i] == photos[i];
      var ages := AgesFrom(init, artist);
      var photo := photos[|photos| - 1];
      if photo.artist_id == artist.id then ages[Age(photo, artist) := photo.name] else ages
  }

  /** A photograph's age, when both years are natural numbers written in decimal with any non-digit text after them. */
  lemma AgeOfDecimalYears(photo: Photograph, artist: Artist, year: nat, born: nat, yearTail: string, bornTail: string)
    requires photo.year == ToDecimal(year) + yearTail && (yearTail == [] || !IsDigit(yearTail[0]))
    requires artist.born == ToDecimal(born) + bornTail && (bornTail == [] || !IsDigit(bornTail[0]))
    ensures Age(photo, artist) == year - born
  {
    ToIntOfDecimal(year, yearTail);
    ToIntOfDecimal(born, bornTail);
  }

  /** True when no photograph after position i is the artist's at the same age as photos[i]. */
  predicate LastAtItsAge(photos: seq<Photograph>, artist: Artist, i: int)
    requires 0 <= i < |photos|
  {
    forall j :: i < j < |photos| && photos[j].artist_id == artist.id ==>
      Age(photos[j], artist) != Age(photos[i], artist)
  }

  /** A key holds the name of the last of the artist's photographs taken at that age. */
  lemma {:induction false} AgesFromLastWins(photos: seq<Photograph>, artist: Artist, i: int)
    requires 0 <= i < |photos| && photos[i].artist_id == artist.id
    requires LastAtItsAge(photos, artist, i)
    ensures Age(photos[i], artist) in AgesFrom(photos, artist)
    ensures AgesFrom(photos, artist)[Age(photos[i], artist)] == photos[i].name
    decreases |photos|
  {
    if i < |photos| - 1 {
      var init := photos[..|photos| - 1];
      assert forall j :: 0 <= j < |init| ==> init[j] == photos[j];
      AgesFromLastWins(init, artist, i);
    }
  }

  lemma AgesFromAllLastWin(photos: seq<Photograph>, artist: Artist)
    ensures forall i :: 0 <= i < |photos| && photos[i].artist_id == artist.id && LastAtItsAge(photos, artist, i) ==>
              Age(photos[i], artist) in AgesFrom(photos, artist) &&
              AgesFrom(photos, artist)[Age(photos[i], artist)] == photos[i].name
  {
    forall i | 0 <= i < |photos| && photos[i].artist_id == artist.id && LastAtItsAge(photos, artist, i)
      ensures Age(photos[i], artist) in AgesFrom(photos, artist) &&
              AgesFrom(photos, artist)[Age(photos[i], artist)] == photos[i].name
    {
      AgesFromLastWins(photos, artist, i);
    }
  }

  /** Appending a photograph extends the list of its own artist, and only that one. */
  lemma PhotoListsGrow(photos: seq<Photograph>, photo: Photograph)
    ensures forall a :: FindAll(photos + [photo], TakenBy(a)) ==
              FindAll(photos, TakenBy(a)) + if photo.artist_id == a.id then [photo] else []
  {
    forall a ensures FindAll(photos + [photo], TakenBy(a)) == FindAll(photos, TakenBy(a)) + FindAll([photo], TakenBy(a)) {
      FindAllAppend(photos, [photo], TakenBy(a));
    }
  }

  /** Appending an artist extends the list of its own country, and only that one. */
  lemma CountryListsGrow(artists: seq<Artist>, artist: Artist)
    ensures forall c :: FindAll(artists + [artist], FromCountry(c)) ==
              FindAll(artists, FromCountry(c)) + if artist.country == c then [artist] else []
  {
    forall c ensures FindAll(artists + [artist], FromCountry(c)) == FindAll(artists, FromCountry(c)) + FindAll([artist], FromCountry(c)) {
      FindAllAppend(artists, [artist], FromCountry(c));
    }
  }

  class Curator {
    var photos: seq<Photograph>
    var artists: seq<Artist>

    constructor ()
      ensures photos == [] && artists == []
    {
      photos := [];
      artists := [];
    }

    /** `add_photo`: append one photograph; lookups and per-artist lists see it at the end. */
    method AddPhoto(photo: Photograph)
      modifies this
      ensures photos == old(photos) + [photo] && artists == old(artists)
      ensures FindPhotoById(photo.id) ==
                if old(FindPhotoById(photo.id)).Some? then old(FindPhotoById(photo.id)) else Some(photo)
      ensures forall a :: FindPhotosByArtist(a) ==
                old(FindPhotosByArtist(a)) + if photo.artist_id == a.id then [photo] else []
    {
      ghost var before := photos;
      photos := photos + [photo];
      FindAppend(before, [photo], PhotoIdIs(photo.id));
      PhotoListsGrow(before, photo);
    }

    /** `add_artist`: append one artist; lookups and per-country lists see it at the end. */
    method AddArtist(artist: Artist)
      modifies this
      ensures artists == old(artists) + [artist] && photos == old(photos)
      ensures FindArtistById(artist.id) ==
                if old(FindArtistById(artist.id)).Some? then old(FindArtistById(artist.id)) else Some(artist)
      ensures forall c :: FindArtistsByCountry(c) ==
                old(FindArtistsByCountry(c)) + if artist.country == c then [artist] else []
    {
      ghost var before := artists;
      artists := artists + [artist];
      FindAppend(before, [artist], ArtistIdIs(artist.id));
      CountryListsGrow(before, artist);
    }

    /** `load_photos` on an already parsed file: one photograph per row, appended in row order. */
    method LoadPhotos(rows: seq<Row>)
      modifies this
      ensures |photos| == |old(photos)| + |rows|
      ensures photos == old(photos) + seq(|rows|, i requires 0 <= i < |rows| => PhotographOf(rows[i]))
      ensures artists == old(artists)
    {
      var n := 0;
      while n < |rows|
        invariant 0 <= n <= |rows|
        invariant photos == old(photos) + seq(n, i requires 0 <= i < n => PhotographOf(rows[i]))
        invariant artists == old(artists)
      {
        ghost var loaded := seq(n, i requires 0 <= i < n => PhotographOf(rows[i]));
        assert seq(n + 1, i requires 0 <= i < n + 1 => PhotographOf(rows[i])) == loaded + [PhotographOf(rows[n])];
        AddPhoto(PhotographOf(rows[n]));
        n := n + 1;
      }
    }

    /** `load_artists` on an already parsed file: one artist per row, appended in row order. */
    method LoadArtists(rows: seq<Row>)
      modifies this
      ensures |artists| == |old(artists)| + |rows|
      ensures artists == old(artists) + seq(|rows|, i requires 0 <= i < |rows| => ArtistOf(rows[i]))
      ensures photos == old(photos)
    {
      var n := 0;
      while n < |rows|
        invariant 0 <= n <= |rows|
        invariant artists == old(artists) + seq(n, i requires 0 <= i < n => ArtistOf(rows[i]))
        invariant photos == old(photos)
      {
        ghost var loaded := seq(n, i requires 0 <= i < n => ArtistOf(rows[i]));
        assert seq(n + 1, i requires 0 <= i < n + 1 => ArtistOf(rows[i])) == loaded + [ArtistOf(rows[n])];
        AddArtist(ArtistOf(rows[n]));
        n := n + 1;
      }
    }

    /** `find_artist_by_id`: the first artist with this id, or None when there is none. */
    function FindArtistById(id: string): (r: Option<Artist>)
      reads this
      ensures r.None? <==> forall i :: 0 <= i < |artists| ==> artists[i].id != id
      ensures forall i ::
                0 <= i < |artists| && artists[i].id == id && (forall j :: 0 <= j < i ==> artists[j].id != id)
                ==> r == Some(artists[i])
    {
      Find(artists, ArtistIdIs(id))
    }

    /** `find_photo_by_id`: the first photograph with this id, or None when there is none. */
    function FindPhotoById(id: string): (r: Option<Photograph>)
      reads this
      ensures r.None? <==> forall i :: 0 <= i < |photos| ==> photos[i].id != id
      ensures forall i ::
                0 <= i < |photos| && photos[i].id == id && (forall j :: 0 <= j < i ==> photos[j].id != id)
                ==> r == Some(photos[i])
    {
      Find(photos, PhotoIdIs(id))
    }

    /** `find_photos_by_artist`: every photograph whose artist_id is the artist's id, in order. */
    function FindPhotosByArtist(artist: Artist): (r: seq<Photograph>)
      reads this
      ensures forall i :: 0 <= i < |r| ==> r[i] in photos && r[i].artist_id == artist.id
      ensures forall i :: 0 <= i < |photos| && photos[i].artist_id == artist.id ==> photos[i] in r
      ensures forall p :: multiset(r)[p] == if p.artist_id == artist.id then multiset(photos)[p] else 0
      ensures IsSubsequence(r, photos)
    {
      FindAllIsSubsequence(photos, TakenBy(artist));
      FindAllMultiplicity(photos, TakenBy(artist));
      FindAll(photos, TakenBy(artist))
    }

    /** `artists_with_multiple_photos`: the artists, in order, with more than one photograph. */
    function ArtistsWithMultiplePhotos(): (r: seq<Artist>)
      reads this
      ensures forall i :: 0 <= i < |r| ==> r[i] in artists && |FindPhotosByArtist(r[i])| > 1
      ensures forall i :: 0 <= i < |artists| && |FindPhotosByArtist(artists[i])| > 1 ==> artists[i] in r
      ensures forall a :: multiset(r)[a] == if |FindPhotosByArtist(a)| > 1 then multiset(artists)[a] else 0
      ensures IsSubsequence(r, artists)
    {
      FindAllIsSubsequence(artists, HasSeveralPhotos(photos));
      FindAllMultiplicity(artists, HasSeveralPhotos(photos));
      FindAll(artists, HasSeveralPhotos(photos))
    }

    /** `find_artists_by_country`: the artists whose country is exactly this string, in order. */
    function FindArtistsByCountry(country: string): (r: seq<Artist>)
      reads this
      ensures forall i :: 0 <= i < |r| ==> r[i] in artists && r[i].country == country
      ensures forall i :: 0 <= i < |artists| && artists[i].country == country ==> artists[i] in r
      ensures forall a :: multiset(r)[a] == if a.country == country then multiset(artists)[a] else 0
      ensures IsSubsequence(r, artists)
    {
      FindAllIsSubsequence(artists, FromCountry(country));
      FindAllMultiplicity(artists, FromCountry(country));
      FindAll(artists, FromCountry(country))
    }

    /** `find_artist_ids_by_country`: the ids of those artists, position by position. */
    function FindArtistIdsByCountry(country: string): (r: seq<string>)
      reads this
      ensures |r| == |FindArtistsByCountry(country)|
      ensures forall i :: 0 <= i < |r| ==> r[i] == FindArtistsByCountry(country)[i].id
      ensures forall id :: id in r <==> exists a :: a in artists && a.country == country && a.id == id
    {
      var from := FindArtistsByCountry(country);
      var r := seq(|from|, i requires 0 <= i < |from| => from[i].id);
      assert forall a :: a in from ==> a.id in r by {
        forall a | a in from ensures a.id in r {
          var i :| 0 <= i < |from| && from[i] == a;
          assert r[i] == a.id;
        }
      }
      r
    }

    /** `photos_taken_by_artists_from`: the photographs, in order, by some artist of that country. */
    function PhotosTakenByArtistsFrom(country: string): (r: seq<Photograph>)
      reads this
      ensures forall i :: 0 <= i < |r| ==> r[i] in photos
      ensures forall i :: 0 <= i < |r| ==> ByArtistFrom(artists, country, r[i])
      ensures forall i :: 0 <= i < |photos| && ByArtistFrom(artists, country, photos[i]) ==> photos[i] in r
      ensures forall p :: multiset(r)[p] == if ByArtistFrom(artists, country, p) then multiset(photos)[p] else 0
      ensures IsSubsequence(r, photos)
      ensures (forall a :: a in artists ==> a.country != country) ==> r == []
    {
      FindAllIsSubsequence(photos, ByArtistAmong(FindArtistIdsByCountry(country)));
      FindAllMultiplicity(photos, ByArtistAmong(FindArtistIdsByCountry(country)));
      FindAll(photos, ByArtistAmong(FindArtistIdsByCountry(country)))
    }

    /** `photos_taken_between(lo..hi)`: the photographs, in order, whose year lies in [lo, hi]. */
    function PhotosTakenBetween(lo: int, hi: int): (r: seq<Photograph>)
      reads this
      ensures forall i :: 0 <= i < |r| ==> r[i] in photos && lo <= ToInt(r[i].year) <= hi
      ensures forall i :: 0 <= i < |photos| && lo <= ToInt(photos[i].year) <= hi ==> photos[i] in r
      ensures forall p :: multiset(r)[p] == if lo <= ToInt(p.year) <= hi then multiset(photos)[p] else 0
      ensures IsSubsequence(r, photos)
      ensures lo > hi ==> r == []
    {
      FindAllIsSubsequence(photos, TakenIn(RangeToA(lo, hi)));
      FindAllMultiplicity(photos, TakenIn(RangeToA(lo, hi)));
      FindAll(photos, TakenIn(RangeToA(lo, hi)))
    }

    /**
      `artists_photographs_by_age`: for each age at which the artist took a
      photograph, the name of the last such photograph.
     */
    function ArtistsPhotographsByAge(artist: Artist): (r: map<int, string>)
      reads this
      ensures forall k :: k in r <==>
                exists i :: 0 <= i < |photos| && photos[i].artist_id == artist.id && Age(photos[i], artist) == k
      ensures forall i :: 0 <= i < |photos| && photos[i].artist_id == artist.id && LastAtItsAge(photos, artist, i) ==>
                Age(photos[i], artist) in r && r[Age(photos[i], artist)] == photos[i].name
    {
      AgesFromAllLastWin(photos, artist);
      AgesFrom(photos, artist)
    }
  }

  /** More than one photograph by an artist means two distinct positions in the photographs hold theirs. */
  lemma MultiplePhotosMeansTwoPositions(c: Curator, artist: Artist)
    ensures |c.FindPhotosByArtist(artist)| > 1 <==>
            exists i, j :: 0 <= i < j < |c.photos| &&
              c.photos[i].artist_id == artist.id && c.photos[j].artist_id == artist.id
  {
    FindAllSeveral(c.photos, TakenBy(artist));
  }
}
