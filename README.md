# Posh-Spotify object model, decoding layer

Posh-Spotify is a PowerShell module for the Spotify Web API. Its C# object
model turns each JSON response into typed records. The response arrives as
an untyped PowerShell property bag, and each record's constructor reads
that bag field by field with a default for every absent key. This project
models those decoders in Dafny. It covers:

- albums, artists, tracks, track links, playlists and the tracks on them;
- users, playback contexts, the player and its device;
- the small value records: external ids and urls, images, followers,
  copyrights and snapshots;
- the OAuth access token.

It also models `PagingInfo`, the page of results whose items are resolved
one by one into entities.

How the model is built:

- **The bag.** A property bag is a `Bags.Value`, either `VNull` or `VObj`
  (a list of name/value pairs). Key lookup is ASCII case-insensitive and
  takes the first match, as `PSObject.Properties[name]` does.
- **Records.** Every record is a Dafny `datatype`, and every bag
  constructor is a function returning `Decoded<T>`, which is `Ok(record)`
  or `Err(reason)`.
- **Errors.** An exception the C# constructor would throw is an `Err`:
  - a popularity outside 0..100;
  - an unknown `type` name in a context;
  - an impossible date;
  - an unboxing cast applied to a value of the wrong shape;
  - a non-track item in an album's track page.
- **Nullable strings.** A C# string can be null, a state distinct from
  `""`, so it is modelled as `Option<string>` (`NString`).
- **Clock.** The clock is a parameter: `now`, in .NET ticks.
- **PagingInfo.** Its bag constructor assigns fields step by step and
  appends to `Items` in a loop, so it is a Dafny `class` with a `while`
  loop. It is proved against the pure decoder `Catalog.DecodePaging`.

Modules and files:

| file | module | contents |
|---|---|---|
| `wrappers.dfy` | `Wrappers` | `Option`, `Result`; `Collect` turns a sequence of results into a result of a sequence |
| `text.dfy` | `Text` | ASCII lower-casing, `Split`/`Join` on one separator, decimal digits |
| `bags.dfy` | `Bags` | the property bag, key lookup, unboxing casts, the per-field default rules |
| `times.dfy` | `Times` | .NET ticks, `AddSeconds` with its range check, Unix-millisecond conversion |
| `dates.dfy` | `Dates` | calendar dates and the `YYYY[-MM[-DD]]` splitting rule |
| `primitives.dfy` | `Primitives` | popularity check, ExternalUrl, ExternalId, ImageInfo, FollowerInfo, Copyright, Snapshot |
| `contexts.dfy` | `Contexts` | `ItemType` and `Context` |
| `artists.dfy` | `Artists` | `Artist` |
| `users.dfy` | `Users` | `User` |
| `catalog.dfy` | `Catalog` | Album, Track, TrackLink, Playlist, PlaylistTrack and the paging decoder with item resolution (mutually recursive) |
| `players.dfy` | `Players` | repeat state, device type, `Device`, `PlayerContext`, `Player` |
| `auth.dfy` | `Auth` | `AuthenticationToken` |
| `paging.dfy` | `PagingObjects` | the `PagingInfo` class and its constructors |

## Model

| member | source | states |
|---|---|---|
| Bags.Get | Posh-Spotify/Model/Context.cs:64-67 | `Properties[key]` is present exactly when some property's name equals the key ignoring ASCII case; the value is that of the first such property |
| Bags.FindFirst | Posh-Spotify/Model/Context.cs:64-67 | the index lookup returns the first property naming the key, no earlier one names it, and it finds none exactly when no property names the key |
| Bags.GetIgnoresOthers | Posh-Spotify/Model/ExternalUrl.cs:31-38 | adding a property whose name is not the key does not change what the key looks up |
| Bags.GetIgnoresProp | Posh-Spotify/Model/ExternalId.cs:31-44 | inserting a property changes no lookup of a key it does not name |
| Bags.CastString | Posh-Spotify/Model/Context.cs:65 | `(string)` unboxes null and strings and throws on every other value |
| Bags.CastBag | Posh-Spotify/Model/Context.cs:64 | `(PSObject)` unboxes null and bags, keeps the value, and throws otherwise |
| Bags.Render | Posh-Spotify/Model/Album.cs:84 | `.ToString()` on an array element gives a string itself, an int or long as its decimal numeral, a boolean as `True`/`False`, an array as `System.Object[]` and a nested bag as a fixed placeholder; it throws exactly on null |
| Bags.StringOr | Posh-Spotify/Model/Context.cs:65 | a string field is the default when the key is absent, null when its value is null, the string when it is one, and an error exactly when the value is neither |
| Bags.BoolOr | Posh-Spotify/Model/Track.cs:91 | a bool field is the default when absent, the bool when it is one, and an error exactly when present with any other value |
| Bags.IntOrZero | Posh-Spotify/Model/Track.cs:89 | an `is int` field is the int when present and an int, and 0 in every other case |
| Bags.TicksOr0 | Posh-Spotify/Model/Track.cs:90 | `duration_ms` read as a `TimeSpan` is the millisecond count times 10,000 ticks, 0 when absent, and an error when present but not an int |
| Bags.ArrayOr | Posh-Spotify/Model/Track.cs:87-88 | an array field is empty when absent, the array's elements when present, and an error exactly when present but not an array |
| Bags.BagOf | Posh-Spotify/Model/Context.cs:64 | a nested-record field gives a null bag when absent (the record's default) and otherwise the cast of the value, which comes from the bag itself |
| Bags.FieldRulesAgree | Posh-Spotify/Model/Track.cs:84-104 | every field rule reads only the one key it names |
| Bags.StringList | Posh-Spotify/Model/Artist.cs:62 | `Select(i => i.ToString())` gives one string per element, in order, and fails exactly when some element fails to render |
| Text.LowerChar | Posh-Spotify/Model/PagingInfo.cs:48 | lower-casing moves `A`..`Z` down by 32, leaves every other character alone, and never leaves an upper-case letter |
| Text.Lower | Posh-Spotify/Model/PagingInfo.cs:48 | `ToLower()` keeps the length and lower-cases position by position |
| Text.LowerOfLower | Posh-Spotify/Model/Context.cs:66 | lower-casing a string with no upper-case letters leaves it unchanged |
| Text.Split | Posh-Spotify/Model/AuthenticationToken.cs:49 | `Split(' ')` gives at least one part |
| Text.JoinSplit | Posh-Spotify/Model/AuthenticationToken.cs:49 | joining the parts of a split with the separator gives the original string back |
| Text.SplitParts | Posh-Spotify/Model/AuthenticationToken.cs:49 | a split has one more part than the string has separators, and no part contains the separator |
| Text.SplitJoin | Posh-Spotify/Model/Album.cs:96 | splitting a join of separator-free parts returns those parts |
| Text.SplitFree | Posh-Spotify/Model/Album.cs:101 | a string without the separator splits into itself alone |
| Text.SplitPrefix | Posh-Spotify/Model/AuthenticationToken.cs:49 | a separator-free prefix followed by the separator becomes the first part, and the rest splits on its own |
| Text.Occurrences | Posh-Spotify/Model/AuthenticationToken.cs:49 | the number of occurrences of a character is its multiplicity in the string, and so at most the length |
| Text.ParseNat | Posh-Spotify/Model/Album.cs:97 | the digit parser succeeds exactly on non-empty all-digit strings |
| Text.NatString | Posh-Spotify/Model/FollowerInfo.cs:35 | a natural number's numeral is a non-empty string of digits |
| Text.DigitChar | Posh-Spotify/Model/FollowerInfo.cs:35 | the digit character of d is a digit whose value is d |
| Text.NatStringValue | Posh-Spotify/Model/FollowerInfo.cs:35 | reading back a natural number's numeral gives the number |
| Text.DecimalRoundTrip | Posh-Spotify/Model/FollowerInfo.cs:34-36 | `Int32.ToString()` rendering, signed, parses back to the same integer |
| Text.NatStringHasNoSeparator | Posh-Spotify/Model/Album.cs:96 | a numeral contains no character that is not a digit, so no dash and no space |
| Times.AddSeconds | Posh-Spotify/Model/AuthenticationToken.cs:40 | `DateTime.AddSeconds` succeeds exactly when the result is within the `DateTime` range, and then moves the instant by that many seconds; otherwise it fails with a range error |
| Times.FromUnixMillis | Posh-Spotify/Model/Player.cs:51 | `FromUnixTimeMilliseconds` accepts exactly the millisecond counts inside the `DateTimeOffset` range and gives the instant that many milliseconds (10,000 ticks each) after the Unix epoch, which converts back to the same count |
| Times.UnixMillisBounds | Posh-Spotify/Model/Player.cs:51 | the millisecond bounds are exactly those whose instant lies within the tick range |
| Times.UnixMillisRoundTrip | Posh-Spotify/Model/Player.cs:51 | every millisecond-aligned instant in range, converted to Unix milliseconds and back, is itself |
| Dates.DaysInMonth | Posh-Spotify/Model/Album.cs:97 | a month has 28 to 31 days |
| Dates.MakeDate | Posh-Spotify/Model/Album.cs:97-101 | `new DateTime(y, m, d)` succeeds exactly on a valid Gregorian date in years 1..9999 and is that date |
| Dates.ParsePart | Posh-Spotify/Model/Album.cs:97 | `Int32.Parse` of a date part succeeds exactly on a digit string whose value fits in an `int`, and gives that value |
| Dates.ParseParts | Posh-Spotify/Model/Album.cs:97-101 | parsing the parts gives one value per part, in order, and succeeds exactly when every part parses |
| Dates.FromParts | Posh-Spotify/Model/Album.cs:97-101 | three parts make (Y,M,D), two make (Y,M,1), one makes (Y,1,1), and any other number leaves the current date |
| Dates.DateOr | Posh-Spotify/Model/User.cs:59-64 | a date field keeps the current date when absent, applies the splitting rule to a string, and fails on any other value |
| Dates.NumeralNoDash | Posh-Spotify/Model/Album.cs:96 | a numeral contains no dash |
| Dates.SplitNumerals | Posh-Spotify/Model/Album.cs:96 | numerals joined with dashes split back into the same numerals |
| Dates.SplitDateDay | Posh-Spotify/Model/Album.cs:97 | a valid `Y-M-D` gives that day |
| Dates.SplitDateMonth | Posh-Spotify/Model/Album.cs:98-99 | a valid `Y-M` gives the first of that month |
| Dates.SplitDateYear | Posh-Spotify/Model/Album.cs:100-101 | a valid `Y` gives the first of January of that year |
| Dates.SplitDateTooManyParts | Posh-Spotify/Model/Album.cs:96-101 | four or more dash-separated parts leave the current date unchanged |
| Dates.SplitDateRejectsNonNumeral | Posh-Spotify/Model/Album.cs:97-101 | a one-to-three-part date with a non-numeric part throws |
| Primitives.CheckPopularity | Posh-Spotify/Model/Track.cs:53-59 | the popularity guard accepts exactly 0..100 inclusive, keeps the value unchanged, and reports the rejected value otherwise; it never clamps |
| Primitives.DecodeExternalUrl | Posh-Spotify/Model/ExternalUrl.cs:26-38 | with a `spotify` key the url is tagged `"spotify"` and holds the key's value; without it, or for a null bag, both fields are "" |
| Primitives.ExternalUrlIgnoresOtherKeys | Posh-Spotify/Model/ExternalUrl.cs:31-38 | removing any property not named `spotify` leaves the result unchanged |
| Primitives.TaggedId | Posh-Spotify/Model/ExternalId.cs:34-41 | the id's type is the matched key's name and its id is the key's string value |
| Primitives.DecodeExternalId | Posh-Spotify/Model/ExternalId.cs:26-44 | `isrc` wins over `ean`, which wins over `upc`; with none of them, or for a null bag, both fields are "" |
| Primitives.ExternalIdKindIsFirstKey | Posh-Spotify/Model/ExternalId.cs:33-42 | a decoded id's type is the first of `isrc`, `ean` and `upc` the bag has, and its id is that key's value |
| Primitives.ExternalIdIgnoresOtherKeys | Posh-Spotify/Model/ExternalId.cs:31-44 | removing any property not named `isrc`, `ean` or `upc` leaves the result unchanged |
| Primitives.DecodeImageInfo | Posh-Spotify/Model/ImageInfo.cs:21-33 | height and width are taken only when they are ints and are 0 otherwise, the url defaults to "", and a null bag gives all defaults |
| Primitives.ImageOf | Posh-Spotify/Model/ImageInfo.cs:27-33 | an image array element is cast to a bag and decoded, and fails exactly when either step fails |
| Primitives.DecodeImages | Posh-Spotify/Model/Album.cs:91 | an image list has one image per array element, in order |
| Primitives.FollowerInfo.ToString | Posh-Spotify/Model/FollowerInfo.cs:34-36 | the text is a decimal numeral that parses back to the follower count |
| Primitives.DecodeFollowerInfo | Posh-Spotify/Model/FollowerInfo.cs:20-30 | `total` is taken only when it is an int and is 0 otherwise, `href` defaults to "", and a null bag gives the defaults |
| Primitives.DecodeCopyright | Posh-Spotify/Model/Copyright.cs:20-30 | `text` and `type` each default to "", and a null bag gives both "" |
| Primitives.CopyrightOf | Posh-Spotify/Model/Copyright.cs:25-30 | a copyright array element is cast to a bag and decoded |
| Primitives.DecodeCopyrights | Posh-Spotify/Model/Album.cs:85 | a copyright list has one entry per array element, in order |
| Primitives.DecodeSnapshot | Posh-Spotify/Model/Snapshot.cs:19-27 | `snapshot_id` gives the id when present, "" when absent or for a null bag, and null when its value is null; any other value fails the `(string)` cast, and only that fails |
| Contexts.LowerName | Posh-Spotify/Model/PagingInfo.cs:48-57 | the lower-case name of each kind is the ASCII lower-casing of its enum name |
| Contexts.LowerNameInjective | Posh-Spotify/Model/Context.cs:26-32 | distinct kinds have distinct lower-case names |
| Contexts.ParseItemType | Posh-Spotify/Model/Context.cs:66 | `Enum.Parse(..., true)` returns a kind whose name equals the text ignoring case, and fails exactly when no kind's name does |
| Contexts.ParseItemTypeName | Posh-Spotify/Model/Context.cs:66 | any spelling of a kind's name, in any case, parses to that kind |
| Contexts.ParseItemTypeIgnoresCase | Posh-Spotify/Model/Context.cs:66 | two texts equal up to case parse alike |
| Contexts.KindOr | Posh-Spotify/Model/Context.cs:66 | an absent `type` leaves Album; a present one must be a string that parses, and the result is the parsed kind |
| Contexts.DecodeContext | Posh-Spotify/Model/Context.cs:55-68 | a null bag gives the default context (Album, "", "" and an empty url); otherwise `external_urls`, `href`, `type` and `uri` are decoded by their rules, and an unknown type fails construction. Decoding an object bag fails only when one of its field rules fails |
| Contexts.EmptyContext | Posh-Spotify/Model/Context.cs:55-68 | a bag with no properties gives the same context as `new Context()`, an album context |
| Contexts.DecodeContextKind | Posh-Spotify/Model/Context.cs:66 | a `type` string naming a kind in any case gives that kind |
| Contexts.DecodeContextUnknownKind | Posh-Spotify/Model/Context.cs:66 | a `type` string naming no kind fails construction |
| Artists.Artist.SetPopularity | Posh-Spotify/Model/Artist.cs:34-40 | the setter accepts exactly 0..100, changes only the popularity, and otherwise raises and changes nothing |
| Artists.DecodeArtist | Posh-Spotify/Model/Artist.cs:44-69 | a null bag gives the default artist; an out-of-range int popularity fails; otherwise each field is decoded by its key's rule, with popularity taken only from an int. Decoding an object bag fails only when one of its field rules fails |
| Artists.EmptyArtist | Posh-Spotify/Model/Artist.cs:44-69 | a bag with no properties gives the same artist as `new Artist()` |
| Artists.ArtistOf | Posh-Spotify/Model/Track.cs:87 | an artist array element is cast to a bag and decoded |
| Artists.DecodeArtists | Posh-Spotify/Model/Track.cs:87 | an artist list has one artist per array element, in order |
| Artists.ArtistCongruence | Posh-Spotify/Model/Artist.cs:57-69 | the artist depends on the bag only through the keys it reads |
| Artists.ArtistIgnoresType | Posh-Spotify/Model/Artist.cs:53-69 | bags differing only in `type` give the same artist, so the kind is always Artist |
| Artists.ArtistIgnoresTypeKey | Posh-Spotify/Model/Artist.cs:57-69 | adding a `type` property to a bag does not change the artist |
| Artists.ArtistPopularity | Posh-Spotify/Model/Artist.cs:34-66 | a decoded artist's popularity lies in 0..100 and is the bag's int, or 0 when there is no int |
| Artists.ArtistGenres | Posh-Spotify/Model/Artist.cs:62 | no `genres` key gives no genres; otherwise one rendered string per array element, in order |
| Users.DecodeUser | Posh-Spotify/Model/User.cs:43-78 | a null bag gives the default user, with null email and subscription; a bag decodes the birthdate by the splitting rule and every other field by its key's rule, with "" for absent email and product. Decoding an object bag fails only when one of its field rules fails |
| Users.UserAt | Posh-Spotify/Model/Playlist.cs:76 | an absent key gives the default user; otherwise the user decoded from the bag under the key, and a value that is not a bag fails |
| Users.NullUserDiffersFromEmptyUser | Posh-Spotify/Model/User.cs:43-78 | the null bag and the empty bag give different users: only the bag constructor sets `Email` and `ProductSubscription` to "" |
| Users.UserBirthdate | Posh-Spotify/Model/User.cs:44-64 | a valid `Y-M-D` birthdate is that day, and no `birthdate` leaves 0001-01-01 |
| Users.UserCongruence | Posh-Spotify/Model/User.cs:56-78 | the user depends on the bag only through the keys it reads |
| Users.UserIgnoresType | Posh-Spotify/Model/User.cs:52-78 | bags differing only in `type` give the same user |
| Catalog.Album.SetPopularity | Posh-Spotify/Model/Album.cs:39-45 | the setter accepts exactly 0..100, changes only the popularity, and otherwise raises and changes nothing |
| Catalog.Track.SetPopularity | Posh-Spotify/Model/Track.cs:53-59 | the setter accepts exactly 0..100, changes only the popularity, and otherwise raises and changes nothing |
| Catalog.KindNamed | Posh-Spotify/Model/PagingInfo.cs:48-57 | a `type` tag selects the kind whose lower-case enum name it equals exactly, and none when it equals no such name |
| Catalog.Classify | Posh-Spotify/Model/PagingInfo.cs:48-61 | an item is an entity exactly when its `type` is a lower-case kind name; otherwise it is a PlaylistTrack exactly when it has `added_at`, and raw in every other case |
| Catalog.TracksOf | Posh-Spotify/Model/Album.cs:105 | `Cast<Track>()` succeeds exactly when every item is a track, and keeps their order |
| Catalog.PlaylistTracksOf | Posh-Spotify/Model/Playlist.cs:80 | `Cast<PlaylistTrack>()` succeeds exactly when every item is a PlaylistTrack, and keeps their order |
| Catalog.CastBags | Posh-Spotify/Model/PagingInfo.cs:40 | `Select(i => (PSObject)i)` accepts exactly arrays whose elements are bags or nulls, and keeps them in order |
| Catalog.PublicOr | Posh-Spotify/Model/Playlist.cs:77 | `Public` is null when absent or null, the bool when it is one, and an error otherwise |
| Catalog.DecodeTrackLink | Posh-Spotify/Model/Track.cs:130-145 | a null bag gives the default link, with "" for href, id and uri; otherwise `external_urls`, `href`, `id` and `uri` are decoded by their rules. Decoding an object bag fails only when one of its field rules fails |
| Catalog.DecodePaging | Posh-Spotify/Model/PagingInfo.cs:27-64 | a null bag gives `Limit=50` and empty items; a bag takes each field by its rule, with 0 for any missing or non-int `limit`, `offset` and `total`, and one resolved item per raw item, in order |
| Catalog.ResolveItem | Posh-Spotify/Model/PagingInfo.cs:47-62 | the item's kind is its classification, and the item is that entity's decoding, the PlaylistTrack decoding, or the unchanged raw bag; resolving fails exactly when the classification or the selected decoder fails |
| Catalog.DecodeAlbum | Posh-Spotify/Model/Album.cs:58-108 | a null bag gives the default album; otherwise every field is its key's rule: the strings, artists, markets, copyrights, external id and url, genres and images, popularity (which fails out of range), the release date by the splitting rule, the precision defaulting to `"year"`, the track page from `tracks` and `Tracks` exactly its items as tracks. Decoding an object bag fails only when one of its field rules fails |
| Catalog.AssignAlbumCatalogFields | Posh-Spotify/Model/Album.cs:82-93 | the first twelve assignments set album type, artists, markets, copyrights, external id and url, href, genres, id, images, label and name by their rules, and change nothing else; they fail only when one of those rules fails |
| Catalog.AssignAlbumTrackFields | Posh-Spotify/Model/Album.cs:94-106 | the last six assignments set popularity (which fails out of range), the release date (kept unless the bag gives one), its precision, the track page, the tracks and uri, and change nothing else; they fail only when one of those rules fails |
| Catalog.DecodeTrack | Posh-Spotify/Model/Track.cs:63-104 | a null bag gives the default track; an out-of-range int popularity fails; disc and track numbers come from ints or 0, duration is milliseconds times 10,000 ticks, `explicit` defaults to false and `is_playable` to true. Decoding an object bag fails only when one of its field rules fails |
| Catalog.AssignTrackCatalogFields | Posh-Spotify/Model/Track.cs:86-93 | the first eight assignments set album, artists, markets, disc number, duration, explicit flag, external id and url by their rules, and change nothing else; they fail only when one of those rules fails |
| Catalog.AssignTrackLinkFields | Posh-Spotify/Model/Track.cs:94-102 | the last nine assignments set href, id, playability, linked track, name, preview url, popularity (which fails out of range), track number and uri, and change nothing else; they fail only when one of those rules fails |
| Catalog.DecodePlaylist | Posh-Spotify/Model/Playlist.cs:48-83 | a null bag gives the default playlist; otherwise every field is its key's rule: `collaborative`, the description, external url, followers, href, id, images, name, the owner (the default user when absent), the tri-state `Public`, the snapshot id, the track page and uri, with `Tracks` exactly the page's items as PlaylistTracks. Decoding an object bag fails only when one of its field rules fails |
| Catalog.AssignPlaylistProfileFields | Posh-Spotify/Model/Playlist.cs:68-78 | the first eleven assignments set the collaborative flag, description, external url, followers, href, id, images, name, owner, tri-state `Public` and snapshot id by their rules, and change nothing else; they fail only when one of those rules fails |
| Catalog.AssignPlaylistTrackFields | Posh-Spotify/Model/Playlist.cs:79-81 | the last three assignments set the track page, `Tracks` as exactly its items as PlaylistTracks, and uri, and change nothing else; they fail only when one of those rules fails |
| Catalog.DecodePlaylistTrack | Posh-Spotify/Model/Playlist.cs:106-120 | a null bag gives the default entry; a bag under `added_by` decodes to that user, and an absent or null one to the default user; a string `added_at` is parsed and an absent or null one gives 0001-01-01; `is_local` defaults to false and the track is the decoding of `track`. Decoding an object bag fails only when one of its field rules fails |
| Catalog.ParseMultiPageObject | Posh-Spotify/Model/PagingInfo.cs:73-81 | the envelope's page is what lies under the lower-cased kind name plus `s`, or null when that key is absent |
| Catalog.DecodePagingIn | Posh-Spotify/Model/PagingInfo.cs:69 | the envelope constructor is the single-bag decoder applied to the envelope's page |
| Catalog.PagingNullVersusEmpty | Posh-Spotify/Model/PagingInfo.cs:27-45 | a null bag gives `Limit=50`, while an empty bag gives `Limit=0`; both have no items and `Total=0` |
| Catalog.PagingFailure | Posh-Spotify/Model/PagingInfo.cs:37-64 | decoding a page fails only when a string rule fails, `items` is not a list of bags, or some item fails to resolve |
| Catalog.EmptyTrackLink | Posh-Spotify/Model/Track.cs:130-145 | a bag with no properties gives the same link as `new TrackLink()` |
| Catalog.EmptyAlbum | Posh-Spotify/Model/Album.cs:58-108 | a bag with no properties gives the same album as `new Album()`, with the default page of limit 50 |
| Catalog.EmptyTrackCatalogFields | Posh-Spotify/Model/Track.cs:86-93 | on a bag with no properties the first eight assignments leave a default track unchanged |
| Catalog.EmptyTrackLinkFields | Posh-Spotify/Model/Track.cs:94-102 | on a bag with no properties the last nine assignments leave a default track unchanged |
| Catalog.EmptyTrack | Posh-Spotify/Model/Track.cs:63-104 | a bag with no properties gives the same track as `new Track()`: playable, with the default album and link |
| Catalog.EmptyPlaylist | Posh-Spotify/Model/Playlist.cs:48-83 | a bag with no properties gives the same playlist as `new Playlist()`: default owner, `Public` null |
| Catalog.EmptyPlaylistTrack | Posh-Spotify/Model/Playlist.cs:106-120 | a bag with no properties gives the same entry as `new PlaylistTrack()`: the default user on 0001-01-01 |
| Catalog.ClassifyByType | Posh-Spotify/Model/PagingInfo.cs:48-57 | a `type` equal to a kind's lower-case name selects that kind, even when `added_at` is present |
| Catalog.ClassifyIsCaseSensitive | Posh-Spotify/Model/PagingInfo.cs:48-57 | a `type` such as `"Track"` is not a kind name, so the item is no entity |
| Catalog.ClassifyFallback | Posh-Spotify/Model/PagingInfo.cs:58-61 | with no recognised type, `added_at` makes a PlaylistTrack, and otherwise the raw bag is passed through unchanged |
| Catalog.EnvelopeKeys | Posh-Spotify/Model/PagingInfo.cs:75 | the envelope keys are `albums`, `artists`, `playlists`, `tracks` and `users` |
| Catalog.PagingInEnvelope | Posh-Spotify/Model/PagingInfo.cs:69-80 | a missing envelope key gives the default page; a present one gives that bag's page |
| Catalog.AlbumReleaseDate | Posh-Spotify/Model/Album.cs:96-101 | `Y-M-D`, `Y-M` and `Y` release dates give (Y,M,D), (Y,M,1) and (Y,1,1); none leaves 0001-01-01 |
| Catalog.AlbumTracks | Posh-Spotify/Model/Album.cs:104-105 | `TrackCount` is the page's total, `Tracks` are the page's items in order, and no `tracks` key gives the default page |
| Catalog.AlbumRejectsOtherItems | Posh-Spotify/Model/Album.cs:105 | a track page holding an item that is not a track fails construction |
| Catalog.AlbumCopyrights | Posh-Spotify/Model/Album.cs:85 | copyrights keep the length and order of their array, and are empty without the key |
| Catalog.AlbumGenres | Posh-Spotify/Model/Album.cs:89 | genres keep the length and order of their array, and are empty without the key |
| Catalog.AlbumImages | Posh-Spotify/Model/Album.cs:91 | images keep the length and order of their array, and are empty without the key |
| Catalog.AlbumPrecision | Posh-Spotify/Model/Album.cs:103 | the release-date precision is `"year"` without the key and the bag's string verbatim with it |
| Catalog.TrackFields | Posh-Spotify/Model/Track.cs:87-101 | disc and track numbers are 0 without an int; duration is `duration_ms` times 10,000 ticks, or 0 when absent; playable defaults to true and explicit to false; there is one artist and one market per array element |
| Catalog.TrackLinkFields | Posh-Spotify/Model/Track.cs:127-151 | a link's type is always `"track"`, its text is its uri, and href, id and uri are "" when absent |
| Catalog.PlaylistTracks | Posh-Spotify/Model/Playlist.cs:79-80 | `TrackCount` is the page's total and `Tracks` are the page's items in order |
| Catalog.TrackCatalogCongruence | Posh-Spotify/Model/Track.cs:86-93 | the first eight assignments depend on the bag only through their keys |
| Catalog.TrackLinkCongruence | Posh-Spotify/Model/Track.cs:94-102 | the last nine assignments depend on the bag only through their keys |
| Catalog.TrackKeys | Posh-Spotify/Model/Track.cs:84-104 | the track depends on the bag only through the seventeen keys it reads |
| Catalog.TrackIgnoresType | Posh-Spotify/Model/Track.cs:84-104 | bags differing only in `type` give the same track |
| Players.RepeatStep | Posh-Spotify/Model/Player.cs:91-99 | `"off"`, `"track"` and `"context"` select that state, and any other text leaves the current state |
| Players.DeviceTypeStep | Posh-Spotify/Model/Player.cs:145-153 | `"Computer"`, `"Smartphone"` and `"Speaker"` select that type, and any other text leaves the current type |
| Players.RepeatOr | Posh-Spotify/Model/Player.cs:90-99 | an absent or null `repeat_state` leaves the state; a string goes through the chain; any other value fails the cast |
| Players.DeviceTypeOr | Posh-Spotify/Model/Player.cs:144-153 | an absent or null `type` leaves the type; a string goes through the chain; any other value fails the cast |
| Players.VolumeOr | Posh-Spotify/Model/Player.cs:159 | an absent or null `volume_percent` gives 0, and an int gives itself |
| Players.DecodeDevice | Posh-Spotify/Model/Player.cs:132-163 | a null bag gives the default device; the type comes from the chain, the id defaults to null, the flags to false, the name to "" and the volume to 0 |
| Players.DefaultPlayerContext | Posh-Spotify/Model/Player.cs:37-43 | the default playback was fetched now, with no track, no progress, not playing and the default context |
| Players.FetchedOnOr | Posh-Spotify/Model/Player.cs:51 | an absent `timestamp` keeps the clock reading; a present one must be a long in the accepted range, and the instant is exactly the Unix epoch plus that many milliseconds |
| Players.TrackOr | Posh-Spotify/Model/Player.cs:53 | the track is null exactly when `item` is absent or null, and otherwise the item's decoding, which succeeds exactly when the track decoding does |
| Players.DecodePlayerContext | Posh-Spotify/Model/Player.cs:37-57 | a null bag gives the default playback; the context, playing flag, timestamp, progress and track are decoded by their rules. Decoding an object bag fails only when one of its field rules fails |
| Players.DefaultPlayer | Posh-Spotify/Model/Player.cs:79-83 | the default player has the default playback, no device, repeat Off and shuffle off |
| Players.DeviceOr | Posh-Spotify/Model/Player.cs:89 | an absent `device` gives none, a null one gives the default device, and otherwise the decoded device |
| Players.DecodePlayer | Posh-Spotify/Model/Player.cs:85-105 | the player is the base playback decoding, then the device, the repeat chain over Off and the shuffle flag. Decoding an object bag fails only when one of its field rules fails |
| Players.PlayerRepeatState | Posh-Spotify/Model/Player.cs:91-99 | an exact repeat word gives its state, and anything else, including no key, leaves Off |
| Players.RepeatWordsAreCaseSensitive | Posh-Spotify/Model/Player.cs:91-99 | `"Track"` and `"CONTEXT"` leave Off, while `"track"` selects Track |
| Players.DeviceTypeMapping | Posh-Spotify/Model/Player.cs:145-153 | an exact device-type name gives its type, and anything else leaves Computer |
| Players.DeviceDefaults | Posh-Spotify/Model/Player.cs:155-159 | an absent id stays null, an absent name is "", and an absent or null volume is 0 |
| Players.PlaybackTrackAndContext | Posh-Spotify/Model/Player.cs:42-53 | the track is null exactly when `item` is absent or null, and an absent or null `context` gives the default context |
| Players.PlaybackProgress | Posh-Spotify/Model/Player.cs:52 | the progress is `progress_ms` times 10,000 ticks, or 0 when absent |
| Players.PlaybackFetchedOn | Posh-Spotify/Model/Player.cs:40-51 | without `timestamp` the fetch time is the clock reading, and with it exactly the UTC instant the Unix epoch plus that many milliseconds |
| Players.PlayerDeviceAndShuffle | Posh-Spotify/Model/Player.cs:80-101 | the device is absent exactly when the key is, and shuffle defaults to false |
| Auth.DefaultToken | Posh-Spotify/Model/AuthenticationToken.cs:24-35 | the default token has empty strings and no scopes, has not expired at the instant it is made, and has expired at every later one |
| Auth.NewToken | Posh-Spotify/Model/AuthenticationToken.cs:37-41 | the explicit constructor keeps both strings, expires exactly `lifetime` seconds after now, has an empty refresh token and no scopes, and fails only when the expiry is out of range |
| Auth.ExpiresOr | Posh-Spotify/Model/AuthenticationToken.cs:47 | without `expires_in` the token expires now; with it, `expires_in` seconds after now |
| Auth.ScopesOr | Posh-Spotify/Model/AuthenticationToken.cs:49 | an absent `scope` gives no scopes; a string splits into scopes that join back to it, one more than it has spaces, none containing a space |
| Auth.DecodeToken | Posh-Spotify/Model/AuthenticationToken.cs:43-51 | a null bag gives the default token; otherwise each field comes from its key's rule with the clock reading. Decoding an object bag fails only when one of its field rules fails |
| Auth.ExpiryIsFinal | Posh-Spotify/Model/AuthenticationToken.cs:24 | a token that has expired stays expired at every later instant |
| Auth.NewTokenLifetime | Posh-Spotify/Model/AuthenticationToken.cs:24-40 | with a non-negative lifetime the token has not expired when made, and has expired exactly at the instants after now plus the lifetime |
| Auth.HourLongToken | Posh-Spotify/Model/AuthenticationToken.cs:24-40 | an hour-long token is valid at the hour and expired one second after it |
| Auth.DecodedTokenLifetime | Posh-Spotify/Model/AuthenticationToken.cs:24-47 | a decoded token expires `expires_in` seconds after now, or now without the key, and with a non-negative `expires_in` it has not expired when read |
| Auth.DecodedScopes | Posh-Spotify/Model/AuthenticationToken.cs:49 | the scopes are the `scope` string split at single spaces, or none without the key |
| Auth.DoubleSpaceGivesEmptyScope | Posh-Spotify/Model/AuthenticationToken.cs:49 | two consecutive spaces give an empty scope between them |
| Auth.DecodedStringDefaults | Posh-Spotify/Model/AuthenticationToken.cs:45-48 | absent `access_token`, `token_type` and `refresh_token` each give "" |
| PagingObjects.PagingInfo.constructor | Posh-Spotify/Model/PagingInfo.cs:27-35 | `new PagingInfo()` holds the default page: "" uris, no items, `Limit=50`, `Offset=0`, `Total=0` |
| PagingObjects.PagingInfo.Load | Posh-Spotify/Model/PagingInfo.cs:37-64 | loading succeeds exactly when the pure decoder does and with the same error; a null bag changes nothing, and otherwise the fields become the decoded page, with the resolved items appended to the old items |
| PagingObjects.PagingInfo.LoadFields | Posh-Spotify/Model/PagingInfo.cs:39-45 | the assignments before the item loop set every field but `Items` by its rule and cast the raw items to bags, or return the first exception, which is the pure decoder's error |
| PagingObjects.PagingInfo.AppendResolved | Posh-Spotify/Model/PagingInfo.cs:47-62 | the loop appends exactly one resolved item per raw item, in order, stops at the first failing item with that item's error, and leaves the other fields unchanged |
| PagingObjects.Resolutions | Posh-Spotify/Model/PagingInfo.cs:47-62 | the resolutions are one per raw item, in order |
| PagingObjects.FromBag | Posh-Spotify/Model/PagingInfo.cs:37-64 | `new PagingInfo(Object)` is a fresh object holding exactly the pure decoder's page, and fails exactly when the decoder does |
| PagingObjects.FromEnvelope | Posh-Spotify/Model/PagingInfo.cs:69-81 | `new PagingInfo(Object, ItemType)` holds the page of the envelope's `<kind>s` bag, and a missing key gives the default page |
| Wrappers.Collect | Posh-Spotify/Model/PagingInfo.cs:47-62 | collecting results succeeds exactly when all do, keeps their values in order, and otherwise returns the first error |
| Wrappers.CollectStep | Posh-Spotify/Model/PagingInfo.cs:47-62 | one more successful step appends its value to the prefix, and a failing step is the error of the whole |

## Left out

- **The `PSObject` machinery.** `Properties`, reflection and boxing are
  replaced by the `Value` datatype. Key lookup is modelled as
  ASCII-only case-insensitive matching; PowerShell's culture-aware
  comparison of non-ASCII names is not modelled.
- **Exception types.** Every exception is a `DecodeError` with a reason.
  The distinction between `InvalidCastException`, `FormatException`,
  `OverflowException` and `ArgumentOutOfRangeException` is not kept. An
  exception does stop construction: the result is an `Err`, not a
  partly built object.
- **Unchecked casts.** `(string)`, `(bool)`, `(object[])`, `(PSObject)`
  and `(int)` on fields without an `is int` test are modelled as errors
  on wrongly shaped values, not as preconditions. This covers every
  input and excludes none.
- Bags.Render: a nested bag inside a string list renders as the fixed
  placeholder `BagText`. PowerShell's own text for a `PSObject` depends
  on its formatting system, which is not modelled.
- **Fractional numbers.** `Value` has no floating-point case, so a JSON
  number with a fraction cannot appear in a bag. `.ToString()` of a
  double, and a double under an `is int` field, are not modelled.
- Dates.ParsePart: models `Int32.Parse` as plain decimal digits with the
  `int` range. The sign, whitespace and culture grammar of the .NET
  parser is not modelled.
- Contexts.ParseItemType: models `Enum.Parse` on names only. Numeric
  strings, surrounding whitespace and comma-separated flag lists are
  not modelled.
- Catalog.DecodePlaylistTrack: `DateTime.Parse` of `added_at` is not
  interpreted. A string gives the symbolic date `Parsed(text)`, and the
  parser's own failures are not modelled.
- Players.FetchedOnOr: the conversion of a Unix-millisecond timestamp to
  local time depends on the time zone. The instant is kept as a UTC
  tick count (`Utc`). The clock reading is `Local(now)`.
- **The clock.** `DateTime.Now` is the parameter `now`. One construction
  reads it once. The C# code reads it again in nested constructors
  (`PlayerContext` inside `Player`), so instants that could differ by a
  few ticks are equal here.
- **Setters as values.** The popularity setters of Album, Artist and
  Track are functions returning the updated record, and the entity
  constructors are pure functions over a default record. Only
  `PagingInfo`, whose constructor loops over its items, is a mutable
  object. In-place mutation and aliasing of the other records are not
  modelled.
- **Display-only `ToString`.** The `ToString` overrides of `Player` and
  `PlayerContext` dereference members that may be null, so they are
  left out. So is `PagingInfo.ToString`, which prints a count.
- **Kinds.** The fixed `Type`/`Kind` of each entity is a constant member
  of its datatype, not a stored field.
- PagingObjects.PagingInfo.Load: after an exception the object's
  partially written fields are left unspecified, beyond the error
  itself. The C# constructor never returns such an object.
- PagingObjects.PagingInfo.AppendResolved: takes the item resolver as a
  parameter, and `Load` passes `Catalog.ResolveItem`. Any resolver
  satisfies the loop's contract.
- Catalog.DecodeTrack: the constructor's seventeen assignments are
  modelled as two consecutive runs of assignments,
  `AssignTrackCatalogFields` then `AssignTrackLinkFields`, applied in
  source order.
- Catalog.DecodeAlbum: the constructor's eighteen assignments are
  modelled the same way, as `AssignAlbumCatalogFields` then
  `AssignAlbumTrackFields`.
- Catalog.DecodePlaylist: the constructor's fourteen assignments are
  modelled the same way, as `AssignPlaylistProfileFields` then
  `AssignPlaylistTrackFields`.
- **Not part of this model:** HTTP transport, token refresh, the
  PowerShell cmdlets and the JSON conversion that produces the bags.
  None of these are in the object model.
