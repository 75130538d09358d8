/** The records of the repository's tests, and what the queries answer on them. */
module Scenario {
  import opened Wrappers
  import opened Enumerable
  import opened Records
  import opened Catalog

  const Photo1 := Photograph("1", "Rue Mouffetard, Paris (Boy with Bottles)", "1", "1954")
  const Photo2 := Photograph("2", "Moonrise, Hernandez", "2", "1941")
  const Photo3 := Photograph("3", "Identical Twins, Roselle, New Jersey", "3", "1967")
  const Photo4 := Photograph("4", "Monolith, The Face of Half Dome", "3", "1927")
  const Artist1 := Artist("1", "Henri Cartier-Bresson", "1908", "2004", "France")
  const Artist2 := Artist("2", "Ansel Adams", "1902", "1984", "United States")
  const Artist3 := Artist("3", "Diane Arbus", "1923", "1971", "United States")

  /** The four test photographs, in the order the tests add them. */
  const TestPhotos := [Photo1, Photo2, Photo3, Photo4]

  /** The three test artists, in the order the tests add them. */
  const TestArtists := [Artist1, Artist2, Artist3]

  /** `find_all` over the test photographs, decided one photograph at a time. */
  lemma FindAllTestPhotos(keep: Photograph -> bool)
    ensures FindAll(TestPhotos, keep) == (if keep(Photo1) then [Photo1] else []) + FindAll([Photo2, Photo3, Photo4], keep)
    ensures FindAll([Photo2, Photo3, Photo4], keep) == (if keep(Photo2) then [Photo2] else []) + FindAll([Photo3, Photo4], keep)
    ensures FindAll([Photo3, Photo4], keep) == (if keep(Photo3) then [Photo3] else []) + FindAll([Photo4], keep)
    ensures FindAll([Photo4], keep) == if keep(Photo4) then [Photo4] else []
  {
    assert TestPhotos == [Photo1] + [Photo2, Photo3, Photo4];
    assert [Photo2, Photo3, Photo4] == [Photo2] + [Photo3, Photo4];
    assert [Photo3, Photo4] == [Photo3] + [Photo4];
    assert [Photo4] == [Photo4] + [];
    FindAllCons(Photo1, [Photo2, Photo3, Photo4], keep);
    FindAllCons(Photo2, [Photo3, Photo4], keep);
    FindAllCons(Photo3, [Photo4], keep);
    FindAllCons(Photo4, [], keep);
  }

  /** `find_all` over the test artists, decided one artist at a time. */
  lemma FindAllTestArtists(keep: Artist -> bool)
    ensures FindAll(TestArtists, keep) == (if keep(Artist1) then [Artist1] else []) + FindAll([Artist2, Artist3], keep)
    ensures FindAll([Artist2, Artist3], keep) == (if keep(Artist2) then [Artist2] else []) + FindAll([Artist3], keep)
    ensures FindAll([Artist3], keep) == if keep(Artist3) then [Artist3] else []
  {
    assert TestArtists == [Artist1] + [Artist2, Artist3];
    assert [Artist2, Artist3] == [Artist2] + [Artist3];
    assert [Artist3] == [Artist3] + [];
    FindAllCons(Artist1, [Artist2, Artist3], keep);
    FindAllCons(Artist2, [Artist3], keep);
    FindAllCons(Artist3, [], keep);
  }

  /** After adding photographs 1 and 2, looking up id "2" gives photograph 2; likewise for artist "1". */
  lemma FindByIdScenario(c: Curator)
    requires c.photos == [Photo1, Photo2] && c.artists == [Artist1, Artist2]
    ensures c.FindPhotoById("2") == Some(Photo2)
    ensures c.FindArtistById("1") == Some(Artist1)
  {
    assert c.photos[0].id != "2" && c.photos[1].id == "2";
    assert c.artists[0].id == "1";
  }

  /** The test photographs taken by artist 1. */
  lemma PhotosOfFirstArtist()
    ensures FindAll(TestPhotos, TakenBy(Artist1)) == [Photo1]
  {
    var keep := TakenBy(Artist1);
    FindAllTestPhotos(keep);
    assert keep(Photo1) && !keep(Photo2) && !keep(Photo3) && !keep(Photo4);
    assert FindAll([Photo4], keep) == [];
    assert FindAll([Photo3, Photo4], keep) == [];
    assert FindAll([Photo2, Photo3, Photo4], keep) == [];
  }

  lemma PhotosByFirstArtistScenario(c: Curator)
    requires c.photos == TestPhotos
    ensures c.FindPhotosByArtist(Artist1) == [Photo1]
  {
    PhotosOfFirstArtist();
    assert c.FindPhotosByArtist(Artist1) == FindAll(TestPhotos, TakenBy(Artist1));
  }

  /** The test photographs taken by artist 2. */
  lemma PhotosOfSecondArtist()
    ensures FindAll(TestPhotos, TakenBy(Artist2)) == [Photo2]
  {
    var keep := TakenBy(Artist2);
    FindAllTestPhotos(keep);
    assert !keep(Photo1) && keep(Photo2) && !keep(Photo3) && !keep(Photo4);
    assert FindAll([Photo4], keep) == [];
    assert FindAll([Photo3, Photo4], keep) == [];
    assert FindAll([Photo2, Photo3, Photo4], keep) == [Photo2];
  }

  lemma PhotosBySecondArtistScenario(c: Curator)
    requires c.photos == TestPhotos
    ensures c.FindPhotosByArtist(Artist2) == [Photo2]
  {
    PhotosOfSecondArtist();
    assert c.FindPhotosByArtist(Artist2) == FindAll(TestPhotos, TakenBy(Artist2));
  }

  /** The test photographs taken by artist 3. */
  lemma PhotosOfThirdArtist()
    ensures FindAll(TestPhotos, TakenBy(Artist3)) == [Photo3, Photo4]
  {
    var keep := TakenBy(Artist3);
    FindAllTestPhotos(keep);
    assert !keep(Photo1) && !keep(Photo2) && keep(Photo3) && keep(Photo4);
    assert FindAll([Photo3, Photo4], keep) == [Photo3] + [Photo4];
  }

  lemma PhotosByThirdArtistScenario(c: Curator)
    requires c.photos == TestPhotos
    ensures c.FindPhotosByArtist(Artist3) == [Photo3, Photo4]
  {
    PhotosOfThirdArtist();
    assert c.FindPhotosByArtist(Artist3) == FindAll(TestPhotos, TakenBy(Artist3));
  }

  lemma MultiplePhotosScenario(c: Curator)
    requires c.photos == TestPhotos && c.artists == TestArtists
    ensures c.ArtistsWithMultiplePhotos() == [Artist3]
  {
    PhotosByFirstArtistScenario(c);
    PhotosBySecondArtistScenario(c);
    PhotosByThirdArtistScenario(c);
    FindAllTestArtists(HasSeveralPhotos(c.photos));
  }

  /** The test artists from the United States. */
  lemma ArtistsOfUnitedStates()
    ensures FindAll(TestArtists, FromCountry("United States")) == [Artist2, Artist3]
  {
    FindAllTestArtists(FromCountry("United States"));
  }

  lemma ArtistsByCountryScenario(c: Curator)
    requires c.artists == TestArtists
    ensures c.FindArtistsByCountry("United States") == [Artist2, Artist3]
    ensures c.FindArtistIdsByCountry("United States") == ["2", "3"]
  {
    ArtistsOfUnitedStates();
    assert c.FindArtistsByCountry("United States") == FindAll(TestArtists, FromCountry("United States"));
  }

  /** The test photographs whose artist is "2" or "3". */
  lemma PhotosOfSecondAndThirdArtist()
    ensures FindAll(TestPhotos, ByArtistAmong(["2", "3"])) == [Photo2, Photo3, Photo4]
  {
    var keep := ByArtistAmong(["2", "3"]);
    FindAllTestPhotos(keep);
    assert !keep(Photo1) && keep(Photo2) && keep(Photo3) && keep(Photo4);
    assert FindAll([Photo4], keep) == [Photo4];
    assert FindAll([Photo3, Photo4], keep) == [Photo3, Photo4];
    assert FindAll([Photo2, Photo3, Photo4], keep) == [Photo2, Photo3, Photo4];
  }

  lemma PhotosFromCountryScenario(c: Curator)
    requires c.photos == TestPhotos && c.artists == TestArtists
    ensures c.PhotosTakenByArtistsFrom("United States") == [Photo2, Photo3, Photo4]
  {
    ArtistsByCountryScenario(c);
    PhotosOfSecondAndThirdArtist();
    calc {
      c.PhotosTakenByArtistsFrom("United States");
      FindAll(c.photos, ByArtistAmong(c.FindArtistIdsByCountry("United States")));
      FindAll(TestPhotos, ByArtistAmong(["2", "3"]));
    }
  }

  lemma PhotosFromUnrepresentedCountryScenario(c: Curator)
    requires c.artists == TestArtists
    ensures c.PhotosTakenByArtistsFrom("Argentina") == []
  {
  }

  /** Diane Arbus's photograph of 1962; the loaded file it comes from is not part of this model. */
  const Photo1962 := Photograph("5", "Child with Toy Hand Grenade in Central Park", "3", "1962")

  /** `to_i` reads the four-digit year strings of the age example as those years. */
  lemma YearsScenario()
    ensures ToInt("1923") == 1923 && ToInt("1967") == 1967 && ToInt("1962") == 1962
  {
    FourDigitYear('1', '9', '2', '3');
    FourDigitYear('1', '9', '6', '7');
    FourDigitYear('1', '9', '6', '2');
  }

  /** An artist born in 1923 with photographs of 1967 and 1962 maps age 44 and age 39 to them. */
  lemma ByAgeScenario(c: Curator)
    requires c.photos == [Photo3, Photo1962]
    ensures c.ArtistsPhotographsByAge(Artist3) ==
              map[44 := "Identical Twins, Roselle, New Jersey", 39 := "Child with Toy Hand Grenade in Central Park"]
  {
    YearsScenario();
    assert Age(Photo3, Artist3) == 44 && Age(Photo1962, Artist3) == 39;
    assert [Photo3, Photo1962][..1] == [Photo3];
    assert [Photo3][..0] == [];
    assert AgesFrom([Photo3], Artist3) == map[44 := Photo3.name];
    assert AgesFrom([Photo3, Photo1962], Artist3) == map[44 := Photo3.name][39 := Photo1962.name];
    assert c.ArtistsPhotographsByAge(Artist3) == AgesFrom([Photo3, Photo1962], Artist3);
  }
}
