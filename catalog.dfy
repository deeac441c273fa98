/** The mutually recursive part of the object model: Album.cs, Track.cs,
    Playlist.cs and the value side of PagingInfo.cs. An album holds a page of
    tracks, a track holds its album, a playlist holds a page of playlist
    tracks, and a page holds items of any of these kinds, so the decoders call
    one another. Each one descends into a property of the bag it was given,
    which is what makes the recursion terminate: a null bag stops at once and
    an object bag is strictly larger than every bag nested inside it. */
module Catalog {
  import opened Wrappers
  import opened Bags
  import opened Primitives
  import opened Dates
  import opened Artists
  import opened Users
  import Contexts

  // ---------------------------------------------------------------- entities

  datatype Album = Album(
    albumType: NString,
    artists: seq<Artist>,
    availableMarkets: seq<string>,
    copyrights: seq<Copyright>,
    externalId: ExternalId,
    externalUrl: ExternalUrl,
    fullDetailUri: NString,
    genres: seq<string>,
    id: NString,
    images: seq<ImageInfo>,
    recordLabel: NString,
    name: NString,
    popularity: Popularity,
    releaseDate: Date,
    releaseDatePrecision: NString,
    trackPaging: Paging,
    tracks: seq<Track>,
    uri: NString)
  {
    /** `Type`, fixed by the constructor and never read from the bag. */
    function Kind(): Contexts.ItemType {
      Contexts.Album
    }

    /** `TrackCount`, derived from the page of tracks. */
    function TrackCount(): int {
      trackPaging.total
    }

    function ToString(): NString {
      name
    }

    /** The `Popularity` setter: stores a value in 0..100 and changes nothing
        else; any other value throws and the album keeps its old value. */
    function SetPopularity(value: int): (r: Decoded<Album>)
      ensures r.Ok? <==> 0 <= value <= 100
      ensures r.Ok? ==> r.value.popularity == value && r.value == this.(popularity := value)
      ensures r.Err? ==> r.error == PopularityOutOfRange(value)
    {
      var p :- CheckPopularity(value);
      Ok(this.(popularity := p))
    }
  }

  datatype Track = Track(
    album: Album,
    artists: seq<Artist>,
    availableMarkets: seq<string>,
    discNumber: int32,
    duration: int,              // ticks of 100 ns
    hasExplicitLyrics: bool,
    externalId: ExternalId,
    externalUrl: ExternalUrl,
    fullDetailUri: NString,
    id: NString,
    isPlayable: bool,
    linkedFrom: TrackLink,
    name: NString,
    previewUrl: NString,
    popularity: Popularity,
    trackNumber: int32,
    uri: NString)
  {
    /** `Type`, fixed by the constructor and never read from the bag. */
    function Kind(): Contexts.ItemType {
      Contexts.Track
    }

    function ToString(): NString {
      name
    }

    /** The `Popularity` setter, as for albums. */
    function SetPopularity(value: int): (r: Decoded<Track>)
      ensures r.Ok? <==> 0 <= value <= 100
      ensures r.Ok? ==> r.value.popularity == value && r.value == this.(popularity := value)
      ensures r.Err? ==> r.error == PopularityOutOfRange(value)
    {
      var p :- CheckPopularity(value);
      Ok(this.(popularity := p))
    }
  }

  /** The original of a relinked track. */
  datatype TrackLink = TrackLink(externalUrl: ExternalUrl, fullDetailUri: NString, id: NString, uri: NString) {
    /** `LinkType`, always "track". */
    function LinkType(): string {
      "track"
    }

    function ToString(): NString {
      uri
    }
  }

  datatype Playlist = Playlist(
    collaborative: bool,
    description: NString,
    externalUrl: ExternalUrl,
    followers: FollowerInfo,
    fullDetailUri: NString,
    id: NString,
    images: seq<ImageInfo>,
    name: NString,
    owner: User,
    isPublic: Option<bool>,      // `bool?`: None is "not relevant"
    snapshotId: NString,
    trackPaging: Paging,
    tracks: seq<PlaylistTrack>,
    uri: NString)
  {
    function Kind(): Contexts.ItemType {
      Contexts.Playlist
    }

    function TrackCount(): int {
      trackPaging.total
    }

    function ToString(): NString {
      name
    }
  }

  datatype PlaylistTrack = PlaylistTrack(addedBy: User, dateAdded: Date, isLocal: bool, track: Track) {
    function ToString(): NString {
      track.name
    }
  }

  /** A page of results. `Items` is an untyped list, so each item is tagged
      with what it was decoded as; an unclassified item is the raw bag. */
  datatype Paging = Paging(
    fullDetailUri: NString,
    items: seq<Item>,
    limit: int32,
    nextPage: NString,
    offset: int32,
    previousPage: NString,
    total: int32)

  datatype Item =
    | AlbumItem(album: Album)
    | ArtistItem(artist: Artist)
    | PlaylistItem(playlist: Playlist)
    | TrackItem(track: Track)
    | UserItem(user: User)
    | PlaylistTrackItem(playlistTrack: PlaylistTrack)
    | RawItem(bag: Bag)

  // ---------------------------------------------------------------- defaults

  /** `new PagingInfo()` */
  const DefaultPaging: Paging := Paging(Some(""), [], 50, Some(""), 0, Some(""), 0)

  /** `new Album()` */
  const DefaultAlbum: Album :=
    Album(Some(""), [], [], [], DefaultExternalId, DefaultExternalUrl, Some(""), [], Some(""), [], Some(""),
          Some(""), 0, MinDate, Some("year"), DefaultPaging, [], Some(""))

  /** `new TrackLink()` */
  const DefaultTrackLink: TrackLink := TrackLink(DefaultExternalUrl, Some(""), Some(""), Some(""))

  /** `new Track()` */
  const DefaultTrack: Track :=
    Track(DefaultAlbum, [], [], 0, 0, false, DefaultExternalId, DefaultExternalUrl, Some(""), Some(""), true,
          DefaultTrackLink, Some(""), Some(""), 0, 0, Some(""))

  /** `new Playlist()` */
  const DefaultPlaylist: Playlist :=
    Playlist(false, Some(""), DefaultExternalUrl, DefaultFollowerInfo, Some(""), Some(""), [], Some(""), DefaultUser,
             None, Some(""), DefaultPaging, [], Some(""))

  /** `new PlaylistTrack()` */
  const DefaultPlaylistTrack: PlaylistTrack := PlaylistTrack(DefaultUser, MinDate, false, DefaultTrack)

  // ---------------------------------------------------------------- classifying page items

  /** The branch of the item resolver an item takes. */
  datatype Shape = Entity(kind: Contexts.ItemType) | Added | Raw

  /** The first kind, in the resolver's order, whose lower-case name the tag
      equals exactly. */
  function KindNamed(tag: NString): (r: Option<Contexts.ItemType>)
    ensures r.Some? ==> tag == Some(Contexts.LowerName(r.value))
    ensures r.None? <==> forall t: Contexts.ItemType :: tag != Some(Contexts.LowerName(t))
  {
    if tag == Some(Contexts.LowerName(Contexts.Album)) then Some(Contexts.Album)
    else if tag == Some(Contexts.LowerName(Contexts.Artist)) then Some(Contexts.Artist)
    else if tag == Some(Contexts.LowerName(Contexts.Playlist)) then Some(Contexts.Playlist)
    else if tag == Some(Contexts.LowerName(Contexts.Track)) then Some(Contexts.Track)
    else if tag == Some(Contexts.LowerName(Contexts.User)) then Some(Contexts.User)
    else None
  }

  /** The tests of the resolver loop, in order: the `type` string against
      each kind's lower-case name, then the presence of `added_at`. A null
      item throws (its properties are dereferenced), and so does a `type` that
      is not a string; a null `type` matches no kind. */
  function Classify(obj: Bag): (r: Decoded<Shape>)
    ensures r.Ok? <==> obj.VObj? && StringOr(obj, "type", None).Ok?
    ensures r.Ok? && r.value.Entity? <==>
      obj.VObj? && (exists t: Contexts.ItemType :: Get(obj, "type") == Some(VStr(Contexts.LowerName(t))))
    ensures r.Ok? && r.value.Entity? ==> Get(obj, "type") == Some(VStr(Contexts.LowerName(r.value.kind)))
    ensures r.Ok? && !r.value.Entity? ==> (r.value.Added? <==> Has(obj, "added_at"))
  {
    if obj.VNull? then Err(Malformed("items"))
    else
      var tag :- StringOr(obj, "type", None);
      match KindNamed(tag)
      case Some(t) => Ok(Entity(t))
      case None => if Has(obj, "added_at") then Ok(Added) else Ok(Raw)
  }

  /** The branch an item was resolved by. */
  function ShapeOf(item: Item): Shape {
    match item
    case AlbumItem(_) => Entity(Contexts.Album)
    case ArtistItem(_) => Entity(Contexts.Artist)
    case PlaylistItem(_) => Entity(Contexts.Playlist)
    case TrackItem(_) => Entity(Contexts.Track)
    case UserItem(_) => Entity(Contexts.User)
    case PlaylistTrackItem(_) => Added
    case RawItem(_) => Raw
  }

  // ---------------------------------------------------------------- list casts

  /** `Items.Cast<Track>().ToList()`: every item must be a track. */
  function TracksOf(items: seq<Item>): (r: Decoded<seq<Track>>)
    ensures r.Ok? <==> forall j :: 0 <= j < |items| ==> items[j].TrackItem?
    ensures r.Ok? ==> |r.value| == |items| && forall j :: 0 <= j < |items| ==> r.value[j] == items[j].track
  {
    if forall j :: 0 <= j < |items| ==> items[j].TrackItem? then
      Ok(seq(|items|, j requires 0 <= j < |items| && items[j].TrackItem? => items[j].track))
    else Err(ItemCast("Track"))
  }

  /** `Items.Cast<PlaylistTrack>().ToList()`: every item must be a playlist track. */
  function PlaylistTracksOf(items: seq<Item>): (r: Decoded<seq<PlaylistTrack>>)
    ensures r.Ok? <==> forall j :: 0 <= j < |items| ==> items[j].PlaylistTrackItem?
    ensures r.Ok? ==> |r.value| == |items| && forall j :: 0 <= j < |items| ==> r.value[j] == items[j].playlistTrack
  {
    if forall j :: 0 <= j < |items| ==> items[j].PlaylistTrackItem? then
      Ok(seq(|items|, j requires 0 <= j < |items| && items[j].PlaylistTrackItem? => items[j].playlistTrack))
    else Err(ItemCast("PlaylistTrack"))
  }

  /** `((object[])items).Select(i => (PSObject)i).ToList()`: the list is cast
      in full before any item is looked at. */
  function CastBags(key: string, xs: seq<Value>): (r: Decoded<seq<Bag>>)
    ensures r.Ok? <==> forall j :: 0 <= j < |xs| ==> xs[j].VNull? || xs[j].VObj?
    ensures r.Ok? ==> r.value == xs
  {
    if forall j :: 0 <= j < |xs| ==> xs[j].VNull? || xs[j].VObj? then
      Ok(seq(|xs|, j requires 0 <= j < |xs| && (xs[j].VNull? || xs[j].VObj?) => xs[j]))
    else Err(Malformed(key))
  }

  /** `(bool?)value`: null stays null, anything but a boolean throws. */
  function PublicOr(b: Bag): (r: Decoded<Option<bool>>)
    ensures !Has(b, "public") ==> r == Ok(None)
    ensures Get(b, "public") == Some(VNull) ==> r == Ok(None)
    ensures Has(b, "public") && Get(b, "public").value.VBool? ==> r == Ok(Some(Get(b, "public").value.b))
    ensures r.Err? <==> Has(b, "public") && !(Get(b, "public").value.VNull? || Get(b, "public").value.VBool?)
  {
    match Get(b, "public")
    case None => Ok(None)
    case Some(VNull) => Ok(None)
    case Some(VBool(x)) => Ok(Some(x))
    case Some(_) => Err(Malformed("public"))
  }

  // ---------------------------------------------------------------- TrackLink

  /** `new TrackLink(Object)` */
  function DecodeTrackLink(b: Bag): (r: Decoded<TrackLink>)
    ensures b.VNull? ==> r == Ok(DefaultTrackLink)
    ensures r.Ok? ==>
      BagOf(b, "external_urls").Ok? && DecodeExternalUrl(BagOf(b, "external_urls").value) == Ok(r.value.externalUrl)
    ensures r.Ok? ==> StringOr(b, "href", Some("")) == Ok(r.value.fullDetailUri)
    ensures r.Ok? ==> StringOr(b, "id", Some("")) == Ok(r.value.id)
    ensures r.Ok? ==> StringOr(b, "uri", Some("")) == Ok(r.value.uri)
    ensures b.VObj? && r.Err? ==>
      || BagOf(b, "external_urls").Err? || DecodeExternalUrl(BagOf(b, "external_urls").value).Err?
      || StringOr(b, "href", Some("")).Err?
      || StringOr(b, "id", Some("")).Err?
      || StringOr(b, "uri", Some("")).Err?
  {
    if b.VNull? then Ok(DefaultTrackLink)
    else
      var eb :- BagOf(b, "external_urls");
      var externalUrl :- DecodeExternalUrl(eb);
      var href :- StringOr(b, "href", Some(""));
      var id :- StringOr(b, "id", Some(""));
      var uri :- StringOr(b, "uri", Some(""));
      Ok(TrackLink(externalUrl, href, id, uri))
  }

  // ---------------------------------------------------------------- the first album run

  /** The first run of assignments of `new Album(Object)`, `AlbumType` to
      `Name`, onto `t`; the other fields keep their values. None of these
      fields holds a page, so the run is not part of the recursion. */
  function AssignAlbumCatalogFields(b: Bag, t: Album): (r: Decoded<Album>)
    ensures r.Ok? ==> StringOr(b, "album_type", Some("")) == Ok(r.value.albumType)
    ensures r.Ok? ==> ArrayOr(b, "artists").Ok? && DecodeArtists("artists", ArrayOr(b, "artists").value) == Ok(r.value.artists)
    ensures r.Ok? ==>
      ArrayOr(b, "available_markets").Ok? &&
      StringList("available_markets", ArrayOr(b, "available_markets").value) == Ok(r.value.availableMarkets)
    ensures r.Ok? ==>
      ArrayOr(b, "copyrights").Ok? && DecodeCopyrights("copyrights", ArrayOr(b, "copyrights").value) == Ok(r.value.copyrights)
    ensures r.Ok? ==> BagOf(b, "external_ids").Ok? && DecodeExternalId(BagOf(b, "external_ids").value) == Ok(r.value.externalId)
    ensures r.Ok? ==> BagOf(b, "external_urls").Ok? && DecodeExternalUrl(BagOf(b, "external_urls").value) == Ok(r.value.externalUrl)
    ensures r.Ok? ==> StringOr(b, "href", Some("")) == Ok(r.value.fullDetailUri)
    ensures r.Ok? ==> ArrayOr(b, "genres").Ok? && StringList("genres", ArrayOr(b, "genres").value) == Ok(r.value.genres)
    ensures r.Ok? ==> StringOr(b, "id", Some("")) == Ok(r.value.id)
    ensures r.Ok? ==> ArrayOr(b, "images").Ok? && DecodeImages("images", ArrayOr(b, "images").value) == Ok(r.value.images)
    ensures r.Ok? ==> StringOr(b, "label", Some("")) == Ok(r.value.recordLabel)
    ensures r.Ok? ==> StringOr(b, "name", Some("")) == Ok(r.value.name)
    ensures r.Ok? ==> r.value.(albumType := t.albumType, artists := t.artists, availableMarkets := t.availableMarkets,
      copyrights := t.copyrights, externalId := t.externalId, externalUrl := t.externalUrl,
      fullDetailUri := t.fullDetailUri, genres := t.genres, id := t.id, images := t.images,
      recordLabel := t.recordLabel, name := t.name) == t
    ensures r.Err? ==>
      || StringOr(b, "album_type", Some("")).Err?
      || ArrayOr(b, "artists").Err? || DecodeArtists("artists", ArrayOr(b, "artists").value).Err?
      || ArrayOr(b, "available_markets").Err? || StringList("available_markets", ArrayOr(b, "available_markets").value).Err?
      || ArrayOr(b, "copyrights").Err? || DecodeCopyrights("copyrights", ArrayOr(b, "copyrights").value).Err?
      || BagOf(b, "external_ids").Err? || DecodeExternalId(BagOf(b, "external_ids").value).Err?
      || BagOf(b, "external_urls").Err? || DecodeExternalUrl(BagOf(b, "external_urls").value).Err?
      || StringOr(b, "href", Some("")).Err?
      || ArrayOr(b, "genres").Err? || StringList("genres", ArrayOr(b, "genres").value).Err?
      || StringOr(b, "id", Some("")).Err?
      || ArrayOr(b, "images").Err? || DecodeImages("images", ArrayOr(b, "images").value).Err?
      || StringOr(b, "label", Some("")).Err?
      || StringOr(b, "name", Some("")).Err?
  {
    var albumType :- StringOr(b, "album_type", Some(""));
    var ars :- ArrayOr(b, "artists");
    var artists :- DecodeArtists("artists", ars);
    var ms :- ArrayOr(b, "available_markets");
    var markets :- StringList("available_markets", ms);
    var cs :- ArrayOr(b, "copyrights");
    var copyrights :- DecodeCopyrights("copyrights", cs);
    var xb :- BagOf(b, "external_ids");
    var externalId :- DecodeExternalId(xb);
    var eb :- BagOf(b, "external_urls");
    var externalUrl :- DecodeExternalUrl(eb);
    var href :- StringOr(b, "href", Some(""));
    var gs :- ArrayOr(b, "genres");
    var genres :- StringList("genres", gs);
    var id :- StringOr(b, "id", Some(""));
    var ims :- ArrayOr(b, "images");
    var images :- DecodeImages("images", ims);
    var recordLabel :- StringOr(b, "label", Some(""));
    var name :- StringOr(b, "name", Some(""));
    Ok(t.(albumType := albumType, artists := artists, availableMarkets := markets, copyrights := copyrights,
          externalId := externalId, externalUrl := externalUrl, fullDetailUri := href, genres := genres, id := id,
          images := images, recordLabel := recordLabel, name := name))
  }

  // ---------------------------------------------------------------- the first playlist run

  /** The first run of assignments of `new Playlist(Object)`, `Collaborative`
      to `SnapshotId`, onto `t`; the other fields keep their values. None of
      these fields holds a page, so the run is not part of the recursion. */
  function AssignPlaylistProfileFields(b: Bag, t: Playlist): (r: Decoded<Playlist>)
    ensures r.Ok? ==> BoolOr(b, "collaborative", false) == Ok(r.value.collaborative)
    ensures r.Ok? ==> StringOr(b, "description", Some("")) == Ok(r.value.description)
    ensures r.Ok? ==> BagOf(b, "external_urls").Ok? && DecodeExternalUrl(BagOf(b, "external_urls").value) == Ok(r.value.externalUrl)
    ensures r.Ok? ==> BagOf(b, "followers").Ok? && DecodeFollowerInfo(BagOf(b, "followers").value) == Ok(r.value.followers)
    ensures r.Ok? ==> StringOr(b, "href", Some("")) == Ok(r.value.fullDetailUri)
    ensures r.Ok? ==> StringOr(b, "id", Some("")) == Ok(r.value.id)
    ensures r.Ok? ==> ArrayOr(b, "images").Ok? && DecodeImages("images", ArrayOr(b, "images").value) == Ok(r.value.images)
    ensures r.Ok? ==> StringOr(b, "name", Some("")) == Ok(r.value.name)
    ensures r.Ok? ==> UserAt(b, "owner") == Ok(r.value.owner)
    ensures r.Ok? ==> PublicOr(b) == Ok(r.value.isPublic)
    ensures r.Ok? ==> StringOr(b, "snapshot_id", Some("")) == Ok(r.value.snapshotId)
    ensures r.Ok? ==> r.value.(collaborative := t.collaborative, description := t.description,
      externalUrl := t.externalUrl, followers := t.followers, fullDetailUri := t.fullDetailUri, id := t.id,
      images := t.images, name := t.name, owner := t.owner, isPublic := t.isPublic, snapshotId := t.snapshotId) == t
    ensures r.Err? ==>
      || BoolOr(b, "collaborative", false).Err?
      || StringOr(b, "description", Some("")).Err?
      || BagOf(b, "external_urls").Err? || DecodeExternalUrl(BagOf(b, "external_urls").value).Err?
      || BagOf(b, "followers").Err? || DecodeFollowerInfo(BagOf(b, "followers").value).Err?
      || StringOr(b, "href", Some("")).Err?
      || StringOr(b, "id", Some("")).Err?
      || ArrayOr(b, "images").Err? || DecodeImages("images", ArrayOr(b, "images").value).Err?
      || StringOr(b, "name", Some("")).Err?
      || UserAt(b, "owner").Err?
      || PublicOr(b).Err?
      || StringOr(b, "snapshot_id", Some("")).Err?
  {
    var collaborative :- BoolOr(b, "collaborative", false);
    var description :- StringOr(b, "description", Some(""));
    var eb :- BagOf(b, "external_urls");
    var externalUrl :- DecodeExternalUrl(eb);
    var fb :- BagOf(b, "followers");
    var followers :- DecodeFollowerInfo(fb);
    var href :- StringOr(b, "href", Some(""));
    var id :- StringOr(b, "id", Some(""));
    var ims :- ArrayOr(b, "images");
    var images :- DecodeImages("images", ims);
    var name :- StringOr(b, "name", Some(""));
    var owner :- UserAt(b, "owner");
    var isPublic :- PublicOr(b);
    var snapshot :- StringOr(b, "snapshot_id", Some(""));
    Ok(t.(collaborative := collaborative, description := description, externalUrl := externalUrl,
          followers := followers, fullDetailUri := href, id := id, images := images, name := name, owner := owner,
          isPublic := isPublic, snapshotId := snapshot))
  }

  // ---------------------------------------------------------------- the recursive decoders

  /** `new PagingInfo(Object)`: a null bag gives the defaults (limit 50); an
      object bag reads `limit`, `offset` and `total` only when they are ints,
      0 otherwise, and resolves every item in order. */
  function DecodePaging(b: Bag): (r: Decoded<Paging>)
    decreases b.VObj?, b, 0
    ensures b.VNull? ==> r == Ok(DefaultPaging)
    ensures r.Ok? && b.VObj? ==>
      && r.value.limit == IntOrZero(b, "limit")
      && r.value.offset == IntOrZero(b, "offset")
      && r.value.total == IntOrZero(b, "total")
    ensures r.Ok? ==> StringOr(b, "href", Some("")) == Ok(r.value.fullDetailUri)
    ensures r.Ok? ==> StringOr(b, "next", Some("")) == Ok(r.value.nextPage)
    ensures r.Ok? ==> StringOr(b, "previous", Some("")) == Ok(r.value.previousPage)
    ensures r.Ok? ==> ArrayOr(b, "items").Ok? && CastBags("items", ArrayOr(b, "items").value).Ok?
    ensures r.Ok? ==> |r.value.items| == |ArrayOr(b, "items").value|
    ensures r.Ok? ==> forall j :: 0 <= j < |r.value.items| ==>
      ResolveItem(CastBags("items", ArrayOr(b, "items").value).value[j]) == Ok(r.value.items[j])
  {
    if b.VNull? then Ok(DefaultPaging)
    else
      var href :- StringOr(b, "href", Some(""));
      var raw :- ArrayOr(b, "items");
      var objs :- CastBags("items", raw);
      var limit := IntOrZero(b, "limit");
      var next :- StringOr(b, "next", Some(""));
      var offset := IntOrZero(b, "offset");
      var previous :- StringOr(b, "previous", Some(""));
      var total := IntOrZero(b, "total");
      var rs := seq(|objs|, j requires 0 <= j < |objs| => ResolveItem(objs[j]));
      var items :- Collect(rs);
      Ok(Paging(href, items, limit, next, offset, previous, total))
  }

  /** One step of the resolver loop: the item decoded as the kind its `type`
      names, else as a playlist track when it has `added_at`, else kept as the
      raw bag. */
  function ResolveItem(obj: Bag): (r: Decoded<Item>)
    decreases obj.VObj?, obj, 2
    ensures Classify(obj).Err? ==> r.Err?
    ensures r.Ok? ==> Classify(obj) == Ok(ShapeOf(r.value))
    ensures r.Ok? && r.value.AlbumItem? ==> DecodeAlbum(obj) == Ok(r.value.album)
    ensures r.Ok? && r.value.ArtistItem? ==> DecodeArtist(obj) == Ok(r.value.artist)
    ensures r.Ok? && r.value.PlaylistItem? ==> DecodePlaylist(obj) == Ok(r.value.playlist)
    ensures r.Ok? && r.value.TrackItem? ==> DecodeTrack(obj) == Ok(r.value.track)
    ensures r.Ok? && r.value.UserItem? ==> DecodeUser(obj) == Ok(r.value.user)
    ensures r.Ok? && r.value.PlaylistTrackItem? ==> DecodePlaylistTrack(obj) == Ok(r.value.playlistTrack)
    ensures r.Ok? && r.value.RawItem? ==> r.value.bag == obj
    ensures Classify(obj) == Ok(Entity(Contexts.Album)) ==> (r.Ok? <==> DecodeAlbum(obj).Ok?)
    ensures Classify(obj) == Ok(Entity(Contexts.Artist)) ==> (r.Ok? <==> DecodeArtist(obj).Ok?)
    ensures Classify(obj) == Ok(Entity(Contexts.Playlist)) ==> (r.Ok? <==> DecodePlaylist(obj).Ok?)
    ensures Classify(obj) == Ok(Entity(Contexts.Track)) ==> (r.Ok? <==> DecodeTrack(obj).Ok?)
    ensures Classify(obj) == Ok(Entity(Contexts.User)) ==> (r.Ok? <==> DecodeUser(obj).Ok?)
    ensures Classify(obj) == Ok(Added) ==> (r.Ok? <==> DecodePlaylistTrack(obj).Ok?)
    ensures Classify(obj) == Ok(Raw) ==> r == Ok(RawItem(obj))
  {
    var shape :- Classify(obj);
    match shape
    case Entity(Album) => var a :- DecodeAlbum(obj); Ok(AlbumItem(a))
    case Entity(Artist) => var a :- DecodeArtist(obj); Ok(ArtistItem(a))
    case Entity(Playlist) => var p :- DecodePlaylist(obj); Ok(PlaylistItem(p))
    case Entity(Track) => var t :- DecodeTrack(obj); Ok(TrackItem(t))
    case Entity(User) => var u :- DecodeUser(obj); Ok(UserItem(u))
    case Added => var pt :- DecodePlaylistTrack(obj); Ok(PlaylistTrackItem(pt))
    case Raw => Ok(RawItem(obj))
  }

  /** `new Album(Object)`: the defaults, then the fields assigned in
      declaration order, in two runs; the release date is split into its
      parts and the tracks are taken from the page of tracks. */
  function DecodeAlbum(b: Bag): (r: Decoded<Album>)
    decreases b.VObj?, b, 1
    ensures b.VNull? ==> r == Ok(DefaultAlbum)
    ensures Has(b, "popularity") && Get(b, "popularity").value.VInt? && !(0 <= Get(b, "popularity").value.i <= 100)
      ==> r.Err?
    ensures r.Ok? ==> r.value.popularity == IntOrZero(b, "popularity")
    ensures r.Ok? && b.VObj? ==> DateOr(b, "release_date", MinDate) == Ok(r.value.releaseDate)
    ensures r.Ok? && b.VObj? ==> StringOr(b, "release_date_precision", Some("year")) == Ok(r.value.releaseDatePrecision)
    ensures r.Ok? && b.VObj? ==> BagOf(b, "tracks").Ok? && DecodePaging(BagOf(b, "tracks").value) == Ok(r.value.trackPaging)
    ensures r.Ok? ==> TracksOf(r.value.trackPaging.items) == Ok(r.value.tracks)
    ensures r.Ok? ==> ArrayOr(b, "artists").Ok? && DecodeArtists("artists", ArrayOr(b, "artists").value) == Ok(r.value.artists)
    ensures r.Ok? ==>
      ArrayOr(b, "available_markets").Ok? &&
      StringList("available_markets", ArrayOr(b, "available_markets").value) == Ok(r.value.availableMarkets)
    ensures r.Ok? ==>
      ArrayOr(b, "copyrights").Ok? && DecodeCopyrights("copyrights", ArrayOr(b, "copyrights").value) == Ok(r.value.copyrights)
    ensures r.Ok? ==> ArrayOr(b, "genres").Ok? && StringList("genres", ArrayOr(b, "genres").value) == Ok(r.value.genres)
    ensures r.Ok? ==> ArrayOr(b, "images").Ok? && DecodeImages("images", ArrayOr(b, "images").value) == Ok(r.value.images)
    ensures r.Ok? ==> StringOr(b, "album_type", Some("")) == Ok(r.value.albumType)
    ensures r.Ok? ==> BagOf(b, "external_ids").Ok? && DecodeExternalId(BagOf(b, "external_ids").value) == Ok(r.value.externalId)
    ensures r.Ok? ==> BagOf(b, "external_urls").Ok? && DecodeExternalUrl(BagOf(b, "external_urls").value) == Ok(r.value.externalUrl)
    ensures r.Ok? ==> StringOr(b, "href", Some("")) == Ok(r.value.fullDetailUri)
    ensures r.Ok? ==> StringOr(b, "id", Some("")) == Ok(r.value.id)
    ensures r.Ok? ==> StringOr(b, "label", Some("")) == Ok(r.value.recordLabel)
    ensures r.Ok? ==> StringOr(b, "name", Some("")) == Ok(r.value.name)
    ensures r.Ok? ==> StringOr(b, "uri", Some("")) == Ok(r.value.uri)
    ensures b.VObj? && r.Err? ==>
      || StringOr(b, "album_type", Some("")).Err?
      || ArrayOr(b, "artists").Err? || DecodeArtists("artists", ArrayOr(b, "artists").value).Err?
      || ArrayOr(b, "available_markets").Err? || StringList("available_markets", ArrayOr(b, "available_markets").value).Err?
      || ArrayOr(b, "copyrights").Err? || DecodeCopyrights("copyrights", ArrayOr(b, "copyrights").value).Err?
      || BagOf(b, "external_ids").Err? || DecodeExternalId(BagOf(b, "external_ids").value).Err?
      || BagOf(b, "external_urls").Err? || DecodeExternalUrl(BagOf(b, "external_urls").value).Err?
      || StringOr(b, "href", Some("")).Err?
      || ArrayOr(b, "genres").Err? || StringList("genres", ArrayOr(b, "genres").value).Err?
      || StringOr(b, "id", Some("")).Err?
      || ArrayOr(b, "images").Err? || DecodeImages("images", ArrayOr(b, "images").value).Err?
      || StringOr(b, "label", Some("")).Err?
      || StringOr(b, "name", Some("")).Err?
      || CheckPopularity(IntOrZero(b, "popularity")).Err?
      || DateOr(b, "release_date", MinDate).Err?
      || StringOr(b, "release_date_precision", Some("year")).Err?
      || BagOf(b, "tracks").Err? || DecodePaging(BagOf(b, "tracks").value).Err?
      || TracksOf(DecodePaging(BagOf(b, "tracks").value).value.items).Err?
      || StringOr(b, "uri", Some("")).Err?
  {
    if b.VNull? then Ok(DefaultAlbum)
    else
      var a :- AssignAlbumCatalogFields(b, DefaultAlbum);
      AssignAlbumTrackFields(b, a)
  }

  /** The second run of assignments of `new Album(Object)`, `Popularity` to
      `Uri`, onto `t`; the release date keeps `t`'s value unless the bag
      gives one, and the other fields keep their values. */
  function AssignAlbumTrackFields(b: Bag, t: Album): (r: Decoded<Album>)
    requires b.VObj?
    decreases b.VObj?, b, 0
    ensures Has(b, "popularity") && Get(b, "popularity").value.VInt? && !(0 <= Get(b, "popularity").value.i <= 100)
      ==> r.Err?
    ensures r.Ok? ==> r.value.popularity == IntOrZero(b, "popularity")
    ensures r.Ok? ==> DateOr(b, "release_date", t.releaseDate) == Ok(r.value.releaseDate)
    ensures r.Ok? ==> StringOr(b, "release_date_precision", Some("year")) == Ok(r.value.releaseDatePrecision)
    ensures r.Ok? ==> BagOf(b, "tracks").Ok? && DecodePaging(BagOf(b, "tracks").value) == Ok(r.value.trackPaging)
    ensures r.Ok? ==> TracksOf(r.value.trackPaging.items) == Ok(r.value.tracks)
    ensures r.Ok? ==> StringOr(b, "uri", Some("")) == Ok(r.value.uri)
    ensures r.Ok? ==> r.value.(popularity := t.popularity, releaseDate := t.releaseDate,
      releaseDatePrecision := t.releaseDatePrecision, trackPaging := t.trackPaging, tracks := t.tracks, uri := t.uri) == t
    ensures r.Err? ==>
      || CheckPopularity(IntOrZero(b, "popularity")).Err?
      || DateOr(b, "release_date", t.releaseDate).Err?
      || StringOr(b, "release_date_precision", Some("year")).Err?
      || BagOf(b, "tracks").Err? || DecodePaging(BagOf(b, "tracks").value).Err?
      || TracksOf(DecodePaging(BagOf(b, "tracks").value).value.items).Err?
      || StringOr(b, "uri", Some("")).Err?
  {
    var popularity :- CheckPopularity(IntOrZero(b, "popularity"));
    var releaseDate :- DateOr(b, "release_date", t.releaseDate);
    var precision :- StringOr(b, "release_date_precision", Some("year"));
    var tb :- BagOf(b, "tracks");
    var paging :- DecodePaging(tb);
    var tracks :- TracksOf(paging.items);
    var uri :- StringOr(b, "uri", Some(""));
    Ok(t.(popularity := popularity, releaseDate := releaseDate, releaseDatePrecision := precision,
          trackPaging := paging, tracks := tracks, uri := uri))
  }

  /** `new Track(Object)`: the defaults, then the fields assigned in
      declaration order, in two runs; `duration_ms` is converted to ticks. */
  function DecodeTrack(b: Bag): (r: Decoded<Track>)
    decreases b.VObj?, b, 1
    ensures b.VNull? ==> r == Ok(DefaultTrack)
    ensures Has(b, "popularity") && Get(b, "popularity").value.VInt? && !(0 <= Get(b, "popularity").value.i <= 100)
      ==> r.Err?
    ensures r.Ok? ==> r.value.popularity == IntOrZero(b, "popularity")
    ensures r.Ok? ==> r.value.discNumber == IntOrZero(b, "disc_number")
    ensures r.Ok? ==> r.value.trackNumber == IntOrZero(b, "track_number")
    ensures r.Ok? ==> TicksOr0(b, "duration_ms") == Ok(r.value.duration)
    ensures r.Ok? ==> BoolOr(b, "explicit", false) == Ok(r.value.hasExplicitLyrics)
    ensures r.Ok? ==> BoolOr(b, "is_playable", true) == Ok(r.value.isPlayable)
    ensures r.Ok? && b.VObj? ==> BagOf(b, "album").Ok? && DecodeAlbum(BagOf(b, "album").value) == Ok(r.value.album)
    ensures r.Ok? ==> ArrayOr(b, "artists").Ok? && DecodeArtists("artists", ArrayOr(b, "artists").value) == Ok(r.value.artists)
    ensures r.Ok? ==>
      ArrayOr(b, "available_markets").Ok? &&
      StringList("available_markets", ArrayOr(b, "available_markets").value) == Ok(r.value.availableMarkets)
    ensures r.Ok? ==> BagOf(b, "linked_from").Ok? && DecodeTrackLink(BagOf(b, "linked_from").value) == Ok(r.value.linkedFrom)
    ensures b.VObj? && r.Err? ==>
      || BagOf(b, "album").Err? || DecodeAlbum(BagOf(b, "album").value).Err?
      || ArrayOr(b, "artists").Err? || DecodeArtists("artists", ArrayOr(b, "artists").value).Err?
      || ArrayOr(b, "available_markets").Err? || StringList("available_markets", ArrayOr(b, "available_markets").value).Err?
      || TicksOr0(b, "duration_ms").Err?
      || BoolOr(b, "explicit", false).Err?
      || BagOf(b, "external_ids").Err? || DecodeExternalId(BagOf(b, "external_ids").value).Err?
      || BagOf(b, "external_urls").Err? || DecodeExternalUrl(BagOf(b, "external_urls").value).Err?
      || StringOr(b, "href", Some("")).Err?
      || StringOr(b, "id", Some("")).Err?
      || BoolOr(b, "is_playable", true).Err?
      || BagOf(b, "linked_from").Err? || DecodeTrackLink(BagOf(b, "linked_from").value).Err?
      || StringOr(b, "name", Some("")).Err?
      || StringOr(b, "preview_url", Some("")).Err?
      || CheckPopularity(IntOrZero(b, "popularity")).Err?
      || StringOr(b, "uri", Some("")).Err?
  {
    if b.VNull? then Ok(DefaultTrack)
    else
      var t :- AssignTrackCatalogFields(b, DefaultTrack);
      AssignTrackLinkFields(b, t)
  }

  /** The first run of assignments of `new Track(Object)`, `Album` to
      `ExternalUrl`, onto `t`; the other fields keep their values. */
  function AssignTrackCatalogFields(b: Bag, t: Track): (r: Decoded<Track>)
    requires b.VObj?
    decreases b.VObj?, b, 0
    ensures r.Ok? ==> BagOf(b, "album").Ok? && DecodeAlbum(BagOf(b, "album").value) == Ok(r.value.album)
    ensures r.Ok? ==> ArrayOr(b, "artists").Ok? && DecodeArtists("artists", ArrayOr(b, "artists").value) == Ok(r.value.artists)
    ensures r.Ok? ==>
      ArrayOr(b, "available_markets").Ok? &&
      StringList("available_markets", ArrayOr(b, "available_markets").value) == Ok(r.value.availableMarkets)
    ensures r.Ok? ==> r.value.discNumber == IntOrZero(b, "disc_number")
    ensures r.Ok? ==> TicksOr0(b, "duration_ms") == Ok(r.value.duration)
    ensures r.Ok? ==> BoolOr(b, "explicit", false) == Ok(r.value.hasExplicitLyrics)
    ensures r.Ok? ==> BagOf(b, "external_ids").Ok? && DecodeExternalId(BagOf(b, "external_ids").value) == Ok(r.value.externalId)
    ensures r.Ok? ==> BagOf(b, "external_urls").Ok? && DecodeExternalUrl(BagOf(b, "external_urls").value) == Ok(r.value.externalUrl)
    ensures r.Ok? ==> r.value.(album := t.album, artists := t.artists, availableMarkets := t.availableMarkets,
      discNumber := t.discNumber, duration := t.duration, hasExplicitLyrics := t.hasExplicitLyrics,
      externalId := t.externalId, externalUrl := t.externalUrl) == t
    ensures r.Err? ==>
      || BagOf(b, "album").Err? || DecodeAlbum(BagOf(b, "album").value).Err?
      || ArrayOr(b, "artists").Err? || DecodeArtists("artists", ArrayOr(b, "artists").value).Err?
      || ArrayOr(b, "available_markets").Err? || StringList("available_markets", ArrayOr(b, "available_markets").value).Err?
      || TicksOr0(b, "duration_ms").Err?
      || BoolOr(b, "explicit", false).Err?
      || BagOf(b, "external_ids").Err? || DecodeExternalId(BagOf(b, "external_ids").value).Err?
      || BagOf(b, "external_urls").Err? || DecodeExternalUrl(BagOf(b, "external_urls").value).Err?
  {
    var ab :- BagOf(b, "album");
    var album :- DecodeAlbum(ab);
    var ars :- ArrayOr(b, "artists");
    var artists :- DecodeArtists("artists", ars);
    var ms :- ArrayOr(b, "available_markets");
    var markets :- StringList("available_markets", ms);
    var disc := IntOrZero(b, "disc_number");
    var duration :- TicksOr0(b, "duration_ms");
    var explicit :- BoolOr(b, "explicit", false);
    var xb :- BagOf(b, "external_ids");
    var externalId :- DecodeExternalId(xb);
    var eb :- BagOf(b, "external_urls");
    var externalUrl :- DecodeExternalUrl(eb);
    Ok(t.(album := album, artists := artists, availableMarkets := markets, discNumber := disc, duration := duration,
          hasExplicitLyrics := explicit, externalId := externalId, externalUrl := externalUrl))
  }

  /** The second run of assignments of `new Track(Object)`, `FullDetailUri`
      to `Uri`, onto `t`; the other fields keep their values. */
  function AssignTrackLinkFields(b: Bag, t: Track): (r: Decoded<Track>)
    ensures Has(b, "popularity") && Get(b, "popularity").value.VInt? && !(0 <= Get(b, "popularity").value.i <= 100)
      ==> r.Err?
    ensures r.Ok? ==> StringOr(b, "href", Some("")) == Ok(r.value.fullDetailUri)
    ensures r.Ok? ==> StringOr(b, "id", Some("")) == Ok(r.value.id)
    ensures r.Ok? ==> BoolOr(b, "is_playable", true) == Ok(r.value.isPlayable)
    ensures r.Ok? ==> BagOf(b, "linked_from").Ok? && DecodeTrackLink(BagOf(b, "linked_from").value) == Ok(r.value.linkedFrom)
    ensures r.Ok? ==> StringOr(b, "name", Some("")) == Ok(r.value.name)
    ensures r.Ok? ==> StringOr(b, "preview_url", Some("")) == Ok(r.value.previewUrl)
    ensures r.Ok? ==> r.value.popularity == IntOrZero(b, "popularity")
    ensures r.Ok? ==> r.value.trackNumber == IntOrZero(b, "track_number")
    ensures r.Ok? ==> StringOr(b, "uri", Some("")) == Ok(r.value.uri)
    ensures r.Ok? ==> r.value.(fullDetailUri := t.fullDetailUri, id := t.id, isPlayable := t.isPlayable,
      linkedFrom := t.linkedFrom, name := t.name, previewUrl := t.previewUrl, popularity := t.popularity,
      trackNumber := t.trackNumber, uri := t.uri) == t
    ensures r.Err? ==>
      || StringOr(b, "href", Some("")).Err?
      || StringOr(b, "id", Some("")).Err?
      || BoolOr(b, "is_playable", true).Err?
      || BagOf(b, "linked_from").Err? || DecodeTrackLink(BagOf(b, "linked_from").value).Err?
      || StringOr(b, "name", Some("")).Err?
      || StringOr(b, "preview_url", Some("")).Err?
      || CheckPopularity(IntOrZero(b, "popularity")).Err?
      || StringOr(b, "uri", Some("")).Err?
  {
    var href :- StringOr(b, "href", Some(""));
    var id :- StringOr(b, "id", Some(""));
    var playable :- BoolOr(b, "is_playable", true);
    var lb :- BagOf(b, "linked_from");
    var linkedFrom :- DecodeTrackLink(lb);
    var name :- StringOr(b, "name", Some(""));
    var preview :- StringOr(b, "preview_url", Some(""));
    var popularity :- CheckPopularity(IntOrZero(b, "popularity"));
    var trackNumber := IntOrZero(b, "track_number");
    var uri :- StringOr(b, "uri", Some(""));
    Ok(t.(fullDetailUri := href, id := id, isPlayable := playable, linkedFrom := linkedFrom, name := name,
          previewUrl := preview, popularity := popularity, trackNumber := trackNumber, uri := uri))
  }

  /** `new Playlist(Object)`: the defaults, then the fields assigned in
      declaration order, in two runs; `public` is kept three-valued and the
      tracks are taken from the page of tracks. */
  function DecodePlaylist(b: Bag): (r: Decoded<Playlist>)
    decreases b.VObj?, b, 1
    ensures b.VNull? ==> r == Ok(DefaultPlaylist)
    ensures r.Ok? ==> PublicOr(b) == Ok(r.value.isPublic)
    ensures r.Ok? ==> BoolOr(b, "collaborative", false) == Ok(r.value.collaborative)
    ensures r.Ok? ==> UserAt(b, "owner") == Ok(r.value.owner)
    ensures r.Ok? && b.VObj? ==> BagOf(b, "tracks").Ok? && DecodePaging(BagOf(b, "tracks").value) == Ok(r.value.trackPaging)
    ensures r.Ok? ==> PlaylistTracksOf(r.value.trackPaging.items) == Ok(r.value.tracks)
    ensures r.Ok? ==> StringOr(b, "description", Some("")) == Ok(r.value.description)
    ensures r.Ok? ==> BagOf(b, "external_urls").Ok? && DecodeExternalUrl(BagOf(b, "external_urls").value) == Ok(r.value.externalUrl)
    ensures r.Ok? ==> BagOf(b, "followers").Ok? && DecodeFollowerInfo(BagOf(b, "followers").value) == Ok(r.value.followers)
    ensures r.Ok? ==> StringOr(b, "href", Some("")) == Ok(r.value.fullDetailUri)
    ensures r.Ok? ==> StringOr(b, "id", Some("")) == Ok(r.value.id)
    ensures r.Ok? ==> ArrayOr(b, "images").Ok? && DecodeImages("images", ArrayOr(b, "images").value) == Ok(r.value.images)
    ensures r.Ok? ==> StringOr(b, "name", Some("")) == Ok(r.value.name)
    ensures r.Ok? ==> StringOr(b, "snapshot_id", Some("")) == Ok(r.value.snapshotId)
    ensures r.Ok? ==> StringOr(b, "uri", Some("")) == Ok(r.value.uri)
    ensures b.VObj? && r.Err? ==>
      || BoolOr(b, "collaborative", false).Err?
      || StringOr(b, "description", Some("")).Err?
      || BagOf(b, "external_urls").Err? || DecodeExternalUrl(BagOf(b, "external_urls").value).Err?
      || BagOf(b, "followers").Err? || DecodeFollowerInfo(BagOf(b, "followers").value).Err?
      || StringOr(b, "href", Some("")).Err?
      || StringOr(b, "id", Some("")).Err?
      || ArrayOr(b, "images").Err? || DecodeImages("images", ArrayOr(b, "images").value).Err?
      || StringOr(b, "name", Some("")).Err?
      || UserAt(b, "owner").Err?
      || PublicOr(b).Err?
      || StringOr(b, "snapshot_id", Some("")).Err?
      || BagOf(b, "tracks").Err? || DecodePaging(BagOf(b, "tracks").value).Err?
      || PlaylistTracksOf(DecodePaging(BagOf(b, "tracks").value).value.items).Err?
      || StringOr(b, "uri", Some("")).Err?
  {
    if b.VNull? then Ok(DefaultPlaylist)
    else
      var p :- AssignPlaylistProfileFields(b, DefaultPlaylist);
      AssignPlaylistTrackFields(b, p)
  }

  /** The second run of assignments of `new Playlist(Object)`,
      `TrackPagingInfo` to `Uri`, onto `t`; the other fields keep their values. */
  function AssignPlaylistTrackFields(b: Bag, t: Playlist): (r: Decoded<Playlist>)
    requires b.VObj?
    decreases b.VObj?, b, 0
    ensures r.Ok? ==> BagOf(b, "tracks").Ok? && DecodePaging(BagOf(b, "tracks").value) == Ok(r.value.trackPaging)
    ensures r.Ok? ==> PlaylistTracksOf(r.value.trackPaging.items) == Ok(r.value.tracks)
    ensures r.Ok? ==> StringOr(b, "uri", Some("")) == Ok(r.value.uri)
    ensures r.Ok? ==> r.value.(trackPaging := t.trackPaging, tracks := t.tracks, uri := t.uri) == t
    ensures r.Err? ==>
      || BagOf(b, "tracks").Err? || DecodePaging(BagOf(b, "tracks").value).Err?
      || PlaylistTracksOf(DecodePaging(BagOf(b, "tracks").value).value.items).Err?
      || StringOr(b, "uri", Some("")).Err?
  {
    var tb :- BagOf(b, "tracks");
    var paging :- DecodePaging(tb);
    var tracks :- PlaylistTracksOf(paging.items);
    var uri :- StringOr(b, "uri", Some(""));
    Ok(t.(trackPaging := paging, tracks := tracks, uri := uri))
  }

  /** `new PlaylistTrack(Object)`: `added_by` and `added_at` count only when
      present and not null; the timestamp is kept as the text it is parsed from. */
  function DecodePlaylistTrack(b: Bag): (r: Decoded<PlaylistTrack>)
    decreases b.VObj?, b, 0
    ensures b.VNull? ==> r == Ok(DefaultPlaylistTrack)
    ensures r.Ok? && (!Has(b, "added_by") || Get(b, "added_by") == Some(VNull)) ==> r.value.addedBy == DefaultUser
    ensures r.Ok? && b.VObj? ==> BagOf(b, "added_by").Ok? && DecodeUser(BagOf(b, "added_by").value) == Ok(r.value.addedBy)
    ensures r.Ok? && (!Has(b, "added_at") || Get(b, "added_at") == Some(VNull)) ==> r.value.dateAdded == MinDate
    ensures r.Ok? && Has(b, "added_at") && Get(b, "added_at").value.VStr? ==>
      r.value.dateAdded == Parsed(Get(b, "added_at").value.s)
    ensures Has(b, "added_at") && !(Get(b, "added_at").value.VNull? || Get(b, "added_at").value.VStr?) ==> r.Err?
    ensures r.Ok? ==> BoolOr(b, "is_local", false) == Ok(r.value.isLocal)
    ensures r.Ok? && b.VObj? ==> BagOf(b, "track").Ok? && DecodeTrack(BagOf(b, "track").value) == Ok(r.value.track)
    ensures b.VObj? && r.Err? ==>
      || BagOf(b, "added_by").Err? || DecodeUser(BagOf(b, "added_by").value).Err?
      || StringOr(b, "added_at", None).Err?
      || BoolOr(b, "is_local", false).Err?
      || BagOf(b, "track").Err? || DecodeTrack(BagOf(b, "track").value).Err?
  {
    if b.VNull? then Ok(DefaultPlaylistTrack)
    else
      var ub :- BagOf(b, "added_by");
      var addedBy :- DecodeUser(ub);
      var when :- StringOr(b, "added_at", None);
      var dateAdded := if when.Some? then Parsed(when.value) else MinDate;
      var isLocal :- BoolOr(b, "is_local", false);
      var tb :- BagOf(b, "track");
      var track :- DecodeTrack(tb);
      Ok(PlaylistTrack(addedBy, dateAdded, isLocal, track))
  }

  // ---------------------------------------------------------------- multi-page envelopes

  /** `ParseMultiPageObject`: the page stored under the plural of the kind's
      lower-case name (`albums`, `artists`, ...), or null when the envelope is
      null or has no such page. */
  function ParseMultiPageObject(env: Bag, t: Contexts.ItemType): (r: Decoded<Bag>)
    ensures r == BagOf(env, Contexts.LowerName(t) + "s")
  {
    var key := Contexts.LowerName(t) + "s";
    if env.VObj? && Has(env, key) then CastBag(key, Get(env, key).value)
    else Ok(VNull)
  }

  /** `new PagingInfo(Object, ItemType)` */
  function DecodePagingIn(env: Bag, t: Contexts.ItemType): (r: Decoded<Paging>)
    ensures ParseMultiPageObject(env, t).Err? ==> r.Err?
    ensures ParseMultiPageObject(env, t).Ok? ==> r == DecodePaging(ParseMultiPageObject(env, t).value)
  {
    var sub :- ParseMultiPageObject(env, t);
    DecodePaging(sub)
  }

  // ---------------------------------------------------------------- page properties

  /** A page fails only when one of its string rules fails, `items` is not a
      list of bags, or one of the items fails to resolve. */
  lemma PagingFailure(b: Bag)
    ensures b.VObj? && DecodePaging(b).Err? ==>
      || StringOr(b, "href", Some("")).Err?
      || ArrayOr(b, "items").Err? || CastBags("items", ArrayOr(b, "items").value).Err?
      || StringOr(b, "next", Some("")).Err?
      || StringOr(b, "previous", Some("")).Err?
      || exists j :: 0 <= j < |ArrayOr(b, "items").value| &&
           ResolveItem(CastBags("items", ArrayOr(b, "items").value).value[j]).Err?
  {
  }

  /** Only the null bag gets the default limit of 50; an object bag without an
      int `limit` gets 0. */
  lemma PagingNullVersusEmpty()
    ensures DecodePaging(VNull) == Ok(DefaultPaging)
    ensures DefaultPaging.limit == 50 && DefaultPaging.items == [] && DefaultPaging.total == 0
    ensures DecodePaging(VObj([])) == Ok(Paging(Some(""), [], 0, Some(""), 0, Some(""), 0))
  {
    var e: Bag := VObj([]);
    assert forall key :: !Has(e, key);
  }

  // ---------------------------------------------------------------- empty bags

  /** A track link bag with no properties gives the same link as `new TrackLink()`. */
  lemma EmptyTrackLink()
    ensures DecodeTrackLink(VObj([])) == Ok(DefaultTrackLink)
  {
    var e: Bag := VObj([]);
    assert forall key :: !Has(e, key);
  }

  /** An album bag with no properties gives the same album as `new Album()`:
      its paging is the default one with limit 50, because a missing `tracks`
      bag is decoded as null. */
  lemma EmptyAlbum()
    ensures DecodeAlbum(VObj([])) == Ok(DefaultAlbum)
    ensures DefaultAlbum.trackPaging == DefaultPaging
  {
    var e: Bag := VObj([]);
    assert forall key :: !Has(e, key);
    assert DecodeAlbum(e).Ok?;
  }

  /** The first assignment run leaves a default track as it is on an empty bag. */
  lemma EmptyTrackCatalogFields()
    ensures AssignTrackCatalogFields(VObj([]), DefaultTrack) == Ok(DefaultTrack)
  {
    var e: Bag := VObj([]);
    assert forall key :: !Has(e, key);
    assert AssignTrackCatalogFields(e, DefaultTrack).Ok?;
  }

  /** So does the second. */
  lemma EmptyTrackLinkFields()
    ensures AssignTrackLinkFields(VObj([]), DefaultTrack) == Ok(DefaultTrack)
  {
    var e: Bag := VObj([]);
    assert forall key :: !Has(e, key);
  }

  /** A track bag with no properties gives the same track as `new Track()`,
      playable and with the default album and link. */
  lemma EmptyTrack()
    ensures DecodeTrack(VObj([])) == Ok(DefaultTrack)
    ensures DefaultTrack.isPlayable && DefaultTrack.album == DefaultAlbum && DefaultTrack.linkedFrom == DefaultTrackLink
  {
    EmptyTrackCatalogFields();
    EmptyTrackLinkFields();
  }

  /** A playlist bag with no properties gives the same playlist as
      `new Playlist()`: no owner details, `Public` unknown. */
  lemma EmptyPlaylist()
    ensures DecodePlaylist(VObj([])) == Ok(DefaultPlaylist)
    ensures DefaultPlaylist.owner == DefaultUser && DefaultPlaylist.isPublic == None
  {
    var e: Bag := VObj([]);
    assert forall key :: !Has(e, key);
    assert DecodePlaylist(e).Ok?;
  }

  /** A playlist entry bag with no properties gives the same entry as
      `new PlaylistTrack()`: added on 0001-01-01 by the default user. */
  lemma EmptyPlaylistTrack()
    ensures DecodePlaylistTrack(VObj([])) == Ok(DefaultPlaylistTrack)
    ensures DefaultPlaylistTrack.dateAdded == MinDate && DefaultPlaylistTrack.addedBy == DefaultUser
  {
    var e: Bag := VObj([]);
    assert forall key :: !Has(e, key);
    assert DecodePlaylistTrack(e).Ok?;
  }

  /** A `type` naming a kind in lower case selects that kind, whatever else
      the item holds: the type test comes before the `added_at` test. */
  lemma ClassifyByType(obj: Bag, t: Contexts.ItemType)
    requires obj.VObj? && Get(obj, "type") == Some(VStr(Contexts.LowerName(t)))
    ensures Classify(obj) == Ok(Entity(t))
  {
    Contexts.LowerNameInjective(Classify(obj).value.kind, t);
  }

  /** The comparison is exact: a kind's declared name with its capital
      letter, such as "Track", selects no kind. */
  lemma ClassifyIsCaseSensitive(obj: Bag, t: Contexts.ItemType)
    requires obj.VObj? && Get(obj, "type") == Some(VStr(Contexts.Name(t)))
    ensures Classify(obj).Ok? && !Classify(obj).value.Entity?
  {
    forall u: Contexts.ItemType ensures Contexts.Name(t) != Contexts.LowerName(u) {
      assert Contexts.Name(t)[0] != Contexts.LowerName(u)[0];
    }
  }

  /** Without a recognised `type`, an item with `added_at` is a playlist track
      and any other item is kept as it is. */
  lemma ClassifyFallback(obj: Bag)
    requires obj.VObj? && StringOr(obj, "type", None).Ok?
    requires forall t: Contexts.ItemType :: Get(obj, "type") != Some(VStr(Contexts.LowerName(t)))
    ensures Has(obj, "added_at") ==> Classify(obj) == Ok(Added)
    ensures !Has(obj, "added_at") ==> Classify(obj) == Ok(Raw) && ResolveItem(obj) == Ok(RawItem(obj))
  {
  }

  /** The plurals the envelope is searched for. */
  lemma EnvelopeKeys()
    ensures Contexts.LowerName(Contexts.Album) + "s" == "albums"
    ensures Contexts.LowerName(Contexts.Artist) + "s" == "artists"
    ensures Contexts.LowerName(Contexts.Playlist) + "s" == "playlists"
    ensures Contexts.LowerName(Contexts.Track) + "s" == "tracks"
    ensures Contexts.LowerName(Contexts.User) + "s" == "users"
  {
  }

  /** The envelope constructor is the page constructor applied to the page
      stored under the kind's plural; a null envelope or a missing page gives
      the default page. */
  lemma PagingInEnvelope(env: Bag, t: Contexts.ItemType)
    ensures !Has(env, Contexts.LowerName(t) + "s") ==> DecodePagingIn(env, t) == Ok(DefaultPaging)
    ensures Has(env, Contexts.LowerName(t) + "s") && Get(env, Contexts.LowerName(t) + "s").value.VObj? ==>
      DecodePagingIn(env, t) == DecodePaging(Get(env, Contexts.LowerName(t) + "s").value)
  {
  }

  // ---------------------------------------------------------------- album properties

  /** `release_date` "Y-M-D" gives that day, "Y-M" the first of the month and
      "Y" the first of January; without it the date stays 0001-01-01. */
  lemma AlbumReleaseDate(b: Bag, y: string, m: string, d: string)
    requires b.VObj? && DecodeAlbum(b).Ok?
    requires Numeral(y) && Numeral(m) && Numeral(d)
    ensures Get(b, "release_date") == Some(VStr(y + "-" + m + "-" + d)) && ValidCivil(NumeralValue(y), NumeralValue(m), NumeralValue(d)) ==>
      DecodeAlbum(b).value.releaseDate == Civil(NumeralValue(y), NumeralValue(m), NumeralValue(d))
    ensures Get(b, "release_date") == Some(VStr(y + "-" + m)) && ValidCivil(NumeralValue(y), NumeralValue(m), 1) ==>
      DecodeAlbum(b).value.releaseDate == Civil(NumeralValue(y), NumeralValue(m), 1)
    ensures Get(b, "release_date") == Some(VStr(y)) && 1 <= NumeralValue(y) <= 9999 ==>
      DecodeAlbum(b).value.releaseDate == Civil(NumeralValue(y), 1, 1)
    ensures !Has(b, "release_date") ==> DecodeAlbum(b).value.releaseDate == MinDate
  {
    var key := "release_date";
    if Get(b, key) == Some(VStr(y + "-" + m + "-" + d)) && ValidCivil(NumeralValue(y), NumeralValue(m), NumeralValue(d)) {
      SplitDateDay(key, y, m, d, MinDate);
    }
    if Get(b, key) == Some(VStr(y + "-" + m)) && ValidCivil(NumeralValue(y), NumeralValue(m), 1) {
      SplitDateMonth(key, y, m, MinDate);
    }
    if Get(b, key) == Some(VStr(y)) && 1 <= NumeralValue(y) <= 9999 {
      SplitDateYear(key, y, MinDate);
    }
  }

  /** `TrackCount` is the page's total and `Tracks` its items, in order; with
      no `tracks` the page is the default one. */
  lemma AlbumTracks(b: Bag)
    requires b.VObj? && DecodeAlbum(b).Ok?
    ensures var a := DecodeAlbum(b).value;
      && a.TrackCount() == a.trackPaging.total
      && |a.tracks| == |a.trackPaging.items|
      && (forall j :: 0 <= j < |a.tracks| ==> a.trackPaging.items[j] == TrackItem(a.tracks[j]))
      && (!Has(b, "tracks") ==> a.trackPaging == DefaultPaging && a.TrackCount() == 0)
  {
  }

  /** A page of tracks holding anything but tracks makes the cast throw. */
  lemma AlbumRejectsOtherItems(b: Bag, j: nat)
    requires b.VObj? && BagOf(b, "tracks").Ok? && DecodePaging(BagOf(b, "tracks").value).Ok?
    requires j < |DecodePaging(BagOf(b, "tracks").value).value.items|
    requires !DecodePaging(BagOf(b, "tracks").value).value.items[j].TrackItem?
    ensures DecodeAlbum(b).Err?
  {
  }

  /** An album has one copyright line per element of its `copyrights` array,
      in order, and none without the key. */
  lemma AlbumCopyrights(b: Bag)
    requires DecodeAlbum(b).Ok?
    ensures !Has(b, "copyrights") ==> DecodeAlbum(b).value.copyrights == []
    ensures Has(b, "copyrights") ==>
      var xs := Get(b, "copyrights").value.elems;
      && Get(b, "copyrights").value.VArr? && |DecodeAlbum(b).value.copyrights| == |xs|
      && forall j :: 0 <= j < |xs| ==> CopyrightOf("copyrights", xs[j]) == Ok(DecodeAlbum(b).value.copyrights[j])
  {
  }

  /** An album has one genre per element of its `genres` array, in order, each
      the element's text; none without the key. */
  lemma AlbumGenres(b: Bag)
    requires DecodeAlbum(b).Ok?
    ensures !Has(b, "genres") ==> DecodeAlbum(b).value.genres == []
    ensures Has(b, "genres") ==>
      var xs := Get(b, "genres").value.elems;
      && Get(b, "genres").value.VArr? && |DecodeAlbum(b).value.genres| == |xs|
      && forall j :: 0 <= j < |xs| ==> Render("genres", xs[j]) == Ok(DecodeAlbum(b).value.genres[j])
  {
  }

  /** An album has one image per element of its `images` array, in order, and
      none without the key. */
  lemma AlbumImages(b: Bag)
    requires DecodeAlbum(b).Ok?
    ensures !Has(b, "images") ==> DecodeAlbum(b).value.images == []
    ensures Has(b, "images") ==>
      var xs := Get(b, "images").value.elems;
      && Get(b, "images").value.VArr? && |DecodeAlbum(b).value.images| == |xs|
      && forall j :: 0 <= j < |xs| ==> ImageOf("images", xs[j]) == Ok(DecodeAlbum(b).value.images[j])
  {
  }

  /** `release_date_precision` is copied as it is, "year" without the key. */
  lemma AlbumPrecision(b: Bag)
    requires DecodeAlbum(b).Ok?
    ensures !Has(b, "release_date_precision") ==> DecodeAlbum(b).value.releaseDatePrecision == Some("year")
    ensures Has(b, "release_date_precision") && Get(b, "release_date_precision").value.VStr? ==>
      DecodeAlbum(b).value.releaseDatePrecision == Some(Get(b, "release_date_precision").value.s)
  {
  }

  // ---------------------------------------------------------------- track properties

  /** The numeric and flag fields of a track: ints only when the bag holds an
      int, the duration in ticks, playable unless the bag says otherwise, and
      artists and markets one per array element. */
  lemma TrackFields(b: Bag)
    requires DecodeTrack(b).Ok?
    ensures var t := DecodeTrack(b).value;
      && (!(Has(b, "disc_number") && Get(b, "disc_number").value.VInt?) ==> t.discNumber == 0)
      && (!(Has(b, "track_number") && Get(b, "track_number").value.VInt?) ==> t.trackNumber == 0)
      && (!Has(b, "duration_ms") ==> t.duration == 0)
      && (Has(b, "duration_ms") ==>
            Get(b, "duration_ms").value.VInt? && t.duration == Get(b, "duration_ms").value.i * TicksPerMillisecond)
      && (!Has(b, "is_playable") ==> t.isPlayable)
      && (!Has(b, "explicit") ==> !t.hasExplicitLyrics)
      && (Has(b, "artists") ==> Get(b, "artists").value.VArr? && |t.artists| == |Get(b, "artists").value.elems|)
      && (Has(b, "available_markets") ==>
            Get(b, "available_markets").value.VArr? && |t.availableMarkets| == |Get(b, "available_markets").value.elems|)
  {
  }

  /** A track link's kind is always "track", its strings default to "" and it
      prints as its uri. */
  lemma TrackLinkFields(b: Bag)
    requires DecodeTrackLink(b).Ok?
    ensures var l := DecodeTrackLink(b).value;
      && l.LinkType() == "track"
      && l.ToString() == l.uri
      && (!Has(b, "href") ==> l.fullDetailUri == Some(""))
      && (!Has(b, "id") ==> l.id == Some(""))
      && (!Has(b, "uri") ==> l.uri == Some(""))
  {
  }

  // ---------------------------------------------------------------- playlist properties

  /** `TrackCount` is the page's total and `Tracks` its items as playlist
      tracks, in order; `public` is absent, null, or the boolean given. */
  lemma PlaylistTracks(b: Bag)
    requires b.VObj? && DecodePlaylist(b).Ok?
    ensures var p := DecodePlaylist(b).value;
      && p.TrackCount() == p.trackPaging.total
      && |p.tracks| == |p.trackPaging.items|
      && (forall j :: 0 <= j < |p.tracks| ==> p.trackPaging.items[j] == PlaylistTrackItem(p.tracks[j]))
      && (!Has(b, "public") ==> p.isPublic == None)
      && (Has(b, "public") && Get(b, "public").value.VBool? ==> p.isPublic == Some(Get(b, "public").value.b))
  {
  }

  // ---------------------------------------------------------------- type keys are ignored

  /** The first run of track assignments depends on its bag only through its
      field rules. */
  lemma TrackCatalogCongruence(b: Bag, b': Bag, t: Track)
    requires b.VObj? && b'.VObj?
    requires BagOf(b, "album") == BagOf(b', "album")
    requires ArrayOr(b, "artists") == ArrayOr(b', "artists")
    requires ArrayOr(b, "available_markets") == ArrayOr(b', "available_markets")
    requires IntOrZero(b, "disc_number") == IntOrZero(b', "disc_number")
    requires TicksOr0(b, "duration_ms") == TicksOr0(b', "duration_ms")
    requires BoolOr(b, "explicit", false) == BoolOr(b', "explicit", false)
    requires BagOf(b, "external_ids") == BagOf(b', "external_ids")
    requires BagOf(b, "external_urls") == BagOf(b', "external_urls")
    ensures AssignTrackCatalogFields(b, t) == AssignTrackCatalogFields(b', t)
  {
    assert BagOf(b, "album").Ok? ==> DecodeAlbum(BagOf(b, "album").value) == DecodeAlbum(BagOf(b', "album").value);
    assert ArrayOr(b, "artists").Ok? ==> DecodeArtists("artists", ArrayOr(b, "artists").value) == DecodeArtists("artists", ArrayOr(b', "artists").value);
    assert ArrayOr(b, "available_markets").Ok? ==> StringList("available_markets", ArrayOr(b, "available_markets").value) == StringList("available_markets", ArrayOr(b', "available_markets").value);
    assert BagOf(b, "external_ids").Ok? ==> DecodeExternalId(BagOf(b, "external_ids").value) == DecodeExternalId(BagOf(b', "external_ids").value);
    assert BagOf(b, "external_urls").Ok? ==> DecodeExternalUrl(BagOf(b, "external_urls").value) == DecodeExternalUrl(BagOf(b', "external_urls").value);
  }

  /** The second run of track assignments depends on its bag only through its
      field rules. */
  lemma TrackLinkCongruence(b: Bag, b': Bag, t: Track)
    requires StringOr(b, "href", Some("")) == StringOr(b', "href", Some(""))
    requires StringOr(b, "id", Some("")) == StringOr(b', "id", Some(""))
    requires BoolOr(b, "is_playable", true) == BoolOr(b', "is_playable", true)
    requires BagOf(b, "linked_from") == BagOf(b', "linked_from")
    requires StringOr(b, "name", Some("")) == StringOr(b', "name", Some(""))
    requires StringOr(b, "preview_url", Some("")) == StringOr(b', "preview_url", Some(""))
    requires IntOrZero(b, "popularity") == IntOrZero(b', "popularity")
    requires IntOrZero(b, "track_number") == IntOrZero(b', "track_number")
    requires StringOr(b, "uri", Some("")) == StringOr(b', "uri", Some(""))
    ensures AssignTrackLinkFields(b, t) == AssignTrackLinkFields(b', t)
  {
    assert BagOf(b, "linked_from").Ok? ==> DecodeTrackLink(BagOf(b, "linked_from").value) == DecodeTrackLink(BagOf(b', "linked_from").value);
  }

  /** The track depends on the bag only through the seventeen keys it looks up. */
  lemma TrackKeys(b: Bag, b': Bag)
    requires b.VNull? <==> b'.VNull?
    requires Get(b, "album") == Get(b', "album")
    requires Get(b, "artists") == Get(b', "artists")
    requires Get(b, "available_markets") == Get(b', "available_markets")
    requires Get(b, "disc_number") == Get(b', "disc_number")
    requires Get(b, "duration_ms") == Get(b', "duration_ms")
    requires Get(b, "explicit") == Get(b', "explicit")
    requires Get(b, "external_ids") == Get(b', "external_ids")
    requires Get(b, "external_urls") == Get(b', "external_urls")
    requires Get(b, "href") == Get(b', "href")
    requires Get(b, "id") == Get(b', "id")
    requires Get(b, "is_playable") == Get(b', "is_playable")
    requires Get(b, "linked_from") == Get(b', "linked_from")
    requires Get(b, "name") == Get(b', "name")
    requires Get(b, "preview_url") == Get(b', "preview_url")
    requires Get(b, "popularity") == Get(b', "popularity")
    requires Get(b, "track_number") == Get(b', "track_number")
    requires Get(b, "uri") == Get(b', "uri")
    ensures DecodeTrack(b) == DecodeTrack(b')
  {
    FieldRulesAgree(b, b', "album");
    FieldRulesAgree(b, b', "artists");
    FieldRulesAgree(b, b', "available_markets");
    FieldRulesAgree(b, b', "disc_number");
    FieldRulesAgree(b, b', "duration_ms");
    FieldRulesAgree(b, b', "explicit");
    FieldRulesAgree(b, b', "external_ids");
    FieldRulesAgree(b, b', "external_urls");
    FieldRulesAgree(b, b', "href");
    FieldRulesAgree(b, b', "id");
    FieldRulesAgree(b, b', "is_playable");
    FieldRulesAgree(b, b', "linked_from");
    FieldRulesAgree(b, b', "name");
    FieldRulesAgree(b, b', "preview_url");
    FieldRulesAgree(b, b', "popularity");
    FieldRulesAgree(b, b', "track_number");
    FieldRulesAgree(b, b', "uri");
    if b.VObj? {
      TrackCatalogCongruence(b, b', DefaultTrack);
      var t := AssignTrackCatalogFields(b, DefaultTrack);
      if t.Ok? {
        TrackLinkCongruence(b, b', t.value);
      }
    }
  }

  /** `Type` is always Track: two bags that agree on every key but `type`
      give the same track. */
  lemma TrackIgnoresType(b: Bag, b': Bag)
    requires b.VNull? <==> b'.VNull?
    requires forall key :: key != "type" ==> Get(b, key) == Get(b', key)
    ensures DecodeTrack(b) == DecodeTrack(b')
  {
    AgreeExcept(b, b', "type", "album");
    AgreeExcept(b, b', "type", "artists");
    AgreeExcept(b, b', "type", "available_markets");
    AgreeExcept(b, b', "type", "disc_number");
    AgreeExcept(b, b', "type", "duration_ms");
    AgreeExcept(b, b', "type", "explicit");
    AgreeExcept(b, b', "type", "external_ids");
    AgreeExcept(b, b', "type", "external_urls");
    AgreeExcept(b, b', "type", "href");
    AgreeExcept(b, b', "type", "id");
    AgreeExcept(b, b', "type", "is_playable");
    AgreeExcept(b, b', "type", "linked_from");
    AgreeExcept(b, b', "type", "name");
    AgreeExcept(b, b', "type", "preview_url");
    AgreeExcept(b, b', "type", "popularity");
    AgreeExcept(b, b', "type", "track_number");
    AgreeExcept(b, b', "type", "uri");
    TrackKeys(b, b');
  }
}
