# Curator catalog, modelled in Dafny

The repository is an in-memory catalog of photographs and artists. Its only
component with behaviour is the `Curator` class (`lib/curator.rb`). A curator
holds two ordered, append-only arrays: `@photos` and `@artists`. It appends to
them one record at a time, or one record per row of a parsed file. Every query
is a linear scan over those arrays:

- lookup by id;
- filters by artist, by country and by year range;
- a join through the photograph's `artist_id`, which is a soft foreign key:
  nothing checks that an artist with that id exists;
- an `inject` that maps an artist's age at capture to a photograph's name.

The Dafny files:

- `wrappers.dfy`, module `Wrappers`: `Option`. A lookup that finds nothing
  returns `None`, as Ruby returns `nil`.
- `enumerable.dfy`, module `Enumerable`: the two parts of Ruby's Enumerable
  that the queries use. `Find` is `find` and `FindAll` is `find_all`; a block is
  a total function `T -> bool`. `IsSubsequence` states order preservation. The
  lemmas cover concatenation and "more than one element kept".
- `records.dfy`, module `Records`: the `Photograph` and `Artist` records, whose
  fields are all strings. It also has Ruby's `String#to_i` as `ToInt`: the value
  of the leading decimal digits, or 0 when there are none. `ToDecimal` writes a
  number in decimal and serves as the reference `ToInt` is proved against. A
  loaded row is a map from column name to cell text, and `PhotographOf` and
  `ArtistOf` turn a row into a record.
- `curator.dfy`, module `Catalog`: class `Curator`.
  - Its fields are `photos: seq<Photograph>` and `artists: seq<Artist>`.
  - `AddPhoto`, `AddArtist`, `LoadPhotos` and `LoadArtists` append in place and
    say exactly what the new state is.
  - Every query is a function that `reads this`. It is built from `Find` or
    `FindAll`, with a named block such as `TakenBy(artist)`, and its `ensures`
    says which records it keeps and in what order.
  - The age map is the left fold `AgesFrom` over the photographs.
- `scenario.dfy`, module `Scenario`: the records of `test/curator_test.rb`, and
  lemmas that the queries give the answers those tests expect.

The queries are functions, so none of them changes `photos` or `artists`.

## Model

| member | source | states |
|---|---|---|
| `Catalog.Curator.constructor` | lib/curator.rb:5-8 | a new curator has no photographs and no artists |
| `Catalog.Curator.AddPhoto` | lib/curator.rb:10-12 | `photos` becomes `old(photos) + [photo]` and `artists` is unchanged; looking up `photo.id` gives the earlier match if there was one, otherwise `photo`; every artist's photo list gains `photo` at its end exactly when `photo.artist_id` is that artist's id |
| `Catalog.Curator.AddArtist` | lib/curator.rb:14-16 | `artists` becomes `old(artists) + [artist]` and `photos` is unchanged; looking up `artist.id` gives the earlier match if there was one, otherwise `artist`; every country's artist list gains `artist` at its end exactly when its country is that country |
| `Catalog.Curator.FindArtistById` | lib/curator.rb:18-20 | None exactly when no artist has the id; otherwise the artist at the smallest index with that id |
| `Catalog.Curator.FindPhotoById` | lib/curator.rb:22-24 | None exactly when no photograph has the id; otherwise the photograph at the smallest index with that id |
| `Catalog.Curator.ArtistsWithMultiplePhotos` | lib/curator.rb:26-28 | an artist is kept exactly when `FindPhotosByArtist` gives it more than one photograph, with as many copies as `artists` holds; the result is a subsequence of `artists`, so it keeps insertion order |
| `Catalog.MultiplePhotosMeansTwoPositions` | lib/curator.rb:26-32 | an artist has more than one photograph exactly when two distinct positions of `photos` carry its id as `artist_id` |
| `Catalog.Curator.FindPhotosByArtist` | lib/curator.rb:30-32 | every result has the artist's id as `artist_id`; each matching photograph occurs as often as in `photos` and no other occurs; the result is a subsequence of `photos` |
| `Catalog.Curator.PhotosTakenByArtistsFrom` | lib/curator.rb:34-37 | a photograph is kept exactly when some artist of the country has its `artist_id` as id, as often as it occurs in `photos`; the result keeps photo order; it is empty when no artist has that country |
| `Catalog.Curator.FindArtistIdsByCountry` | lib/curator.rb:39-41 | same length as `FindArtistsByCountry`, and the i-th id is the i-th artist's id; an id occurs exactly when some artist of the country has it |
| `Catalog.Curator.FindArtistsByCountry` | lib/curator.rb:43-45 | an artist is kept exactly when its country equals the string, as often as it occurs in `artists`; the result is a subsequence of `artists` |
| `Catalog.Curator.LoadPhotos` | lib/curator.rb:47-51 | N rows append exactly N photographs, the i-th built from the i-th row, after the existing ones; `artists` is unchanged |
| `Catalog.Curator.LoadArtists` | lib/curator.rb:53-57 | N rows append exactly N artists, the i-th built from the i-th row, after the existing ones; `photos` is unchanged |
| `Catalog.Curator.PhotosTakenBetween` | lib/curator.rb:59-61 | a photograph is kept exactly when `lo <= to_i(year) <= hi`, both ends included, as often as it occurs in `photos`; the result keeps photo order; it is empty when `lo > hi` |
| `Catalog.PhotoListsGrow` | lib/curator.rb:10-12 | appending a photograph adds it at the end of its own artist's list and leaves every other artist's list as it was |
| `Catalog.CountryListsGrow` | lib/curator.rb:14-16 | appending an artist adds it at the end of its own country's list and leaves every other country's list as it was |
| `Catalog.RangeToA` | lib/curator.rb:60 | `(lo..hi).to_a`: the integers lo, lo+1, ..., hi in order, so a number is in it exactly when it lies in [lo, hi] |
| `Catalog.Curator.ArtistsPhotographsByAge` | lib/curator.rb:63-70 | the keys are exactly the ages `to_i(year) - to_i(born)` of the artist's photographs; each key holds the name of the last of them at that age |
| `Catalog.AgesFrom` | lib/curator.rb:64-69 | the `inject` produces a key exactly for each age of one of the artist's photographs |
| `Catalog.AgeOfDecimalYears` | lib/curator.rb:66 | the age is the photograph's year minus the artist's birth year whenever both are decimal numbers, even with non-digit text after them |
| `Catalog.AgesFromLastWins` | lib/curator.rb:64-69 | a photograph of the artist with no later photograph of the artist at the same age has its name stored under its age (last write wins) |
| `Catalog.AgesFromAllLastWin` | lib/curator.rb:64-69 | `AgesFromLastWins` for every position at once |
| `Enumerable.Find` | lib/curator.rb:19 | `find`: None exactly when the block accepts no element; otherwise the element at the first accepted position |
| `Enumerable.FindAll` | lib/curator.rb:31 | `find_all`: keeps every accepted element and only those, and never more elements than the input has; how many copies it keeps is `FindAllMultiplicity` |
| `Enumerable.FindAllMultiplicity` | lib/curator.rb:31 | `find_all` keeps every copy of an accepted element and no copy of any other |
| `Enumerable.FindAllIsSubsequence` | lib/curator.rb:31 | what `find_all` keeps is a subsequence of the input, so input order is kept |
| `Enumerable.FindAppend` | lib/curator.rb:23 | `find` over `a + b` is the match in `a` if there is one, otherwise the match in `b` |
| `Enumerable.FindAllAppend` | lib/curator.rb:31 | `find_all` over `a + b` is `find_all` over `a` followed by `find_all` over `b` |
| `Enumerable.FindAllSeveral` | lib/curator.rb:27 | `find_all` keeps more than one element exactly when two distinct positions are accepted |
| `Records.PhotographOf` | lib/curator.rb:50 | each of the columns id, name, artist_id and year present in the row becomes the attribute of that name |
| `Records.ArtistOf` | lib/curator.rb:56 | each of the columns id, name, born, died and country present in the row becomes the attribute of that name |
| `Records.LeadingDigits` | lib/curator.rb:60 | the longest prefix of the string made of digits |
| `Records.ToInt` | lib/curator.rb:60 | `to_i` gives 0 for an empty string or one that does not start with a digit |
| `Records.ToIntOfDigits` | lib/curator.rb:66 | `to_i` of a digit string followed by non-digit text is the digit string's value |
| `Records.ToIntOfDecimal` | lib/curator.rb:66 | `to_i` undoes the decimal spelling of any natural number, even with non-digit text after it |
| `Records.FourDigitYear` | lib/curator.rb:66 | a four-digit year string reads as the year it spells |
| `Scenario.FindByIdScenario` | test/curator_test.rb:77-89 | with photographs 1, 2 and artists 1, 2, id "2" finds photograph 2 and id "1" finds artist 1 |
| `Scenario.PhotosByFirstArtistScenario` | test/curator_test.rb:91-102 | on the four test photographs, artist 1 has only photograph 1 |
| `Scenario.PhotosBySecondArtistScenario` | test/curator_test.rb:91-102 | on the four test photographs, artist 2 has only photograph 2 |
| `Scenario.PhotosByThirdArtistScenario` | test/curator_test.rb:91-102 | on the four test photographs, artist 3 has photographs 3 and 4, in that order |
| `Scenario.MultiplePhotosScenario` | test/curator_test.rb:104-115 | only artist 3 has multiple photographs |
| `Scenario.ArtistsByCountryScenario` | test/curator_test.rb:117-131 | "United States" gives artists 2 and 3, and ids "2" and "3" |
| `Scenario.PhotosFromCountryScenario` | test/curator_test.rb:133-143 | "United States" gives photographs 2, 3 and 4, in order |
| `Scenario.PhotosFromUnrepresentedCountryScenario` | test/curator_test.rb:145 | "Argentina", the country of no artist, gives no photographs |
| `Scenario.YearsScenario` | test/curator_test.rb:180-183 | `to_i` reads "1923", "1967" and "1962" as those years |
| `Scenario.ByAgeScenario` | test/curator_test.rb:174-184 | an artist born in 1923 with photographs of 1967 and 1962 gets the map {44 => 1967 photo's name, 39 => 1962 photo's name} |

## Left out

- Reading files: `CSV.read` with its format options (lib/curator.rb:48-49, 54-55) is file I/O through a foreign library. `LoadPhotos` and `LoadArtists` take the rows the reader would return, as maps from column name to cell text. A failed read is not modelled.
- `Records.PhotographOf`, `Records.ArtistOf`: the contracts cover only the columns present in the row. lib/photograph.rb and lib/artist.rb are not part of this model. The records are taken to copy each column of the row into the attribute of the same name. A missing column gives "" where Ruby would give `nil`.
- Return values of `add_photo`, `add_artist`, `load_photos` and `load_artists` (the appended array, or an array of such arrays) are not modelled. Callers in the repository do not use them.
- `Records.ToInt`: models only "the leading digits, else 0". Ruby's `to_i` also skips leading whitespace, reads a sign and ignores underscores between digits. So here a parsed year is never negative.
- `Catalog.Curator.PhotosTakenBetween`: takes the two ends of an inclusive integer range `lo..hi`. Exclusive ranges (`lo...hi`) and non-integer ranges are not modelled.
- Passing `nil` where a record is expected, for example `find_photos_by_artist(nil)` after a failed lookup, raises `NoMethodError` in Ruby once the block runs on a non-empty collection. On an empty curator `find_photos_by_artist(nil)` returns `[]` and `artists_photographs_by_age(nil)` returns `{}` (lib/curator.rb:31, 64-65). Parameters here are always records, so neither case is modelled.
- Record identity: the tests compare records with `assert_equal`. Here records are datatype values compared by value.
- `Scenario.ByAgeScenario`: the 1962 photograph comes from a data file that is not part of this model. Its id and position are chosen here; its name and year are the tests' own.
