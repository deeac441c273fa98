/** Context.cs: the `ItemType` enumeration and the `Context` record most
    catalogue objects start from (external url, `href`, type, `uri`). */
module Contexts {
  import opened Wrappers
  import opened Bags
  import opened Primitives
  import Text

  /** The closed set of catalogue item kinds, in declaration order. */
  datatype ItemType = Album | Artist | Playlist | Track | User

  /** `t.ToString()`: the member's name as declared. */
  function Name(t: ItemType): string {
    match t
    case Album => "Album"
    case Artist => "Artist"
    case Playlist => "Playlist"
    case Track => "Track"
    case User => "User"
  }

  /** `t.ToString().ToLower()`: the discriminator the Web API writes in `type`. */
  function LowerName(t: ItemType): (s: string)
    ensures s == Text.Lower(Name(t))
    ensures s == match t
      case Album => "album"
      case Artist => "artist"
      case Playlist => "playlist"
      case Track => "track"
      case User => "user"
  {
    match t
    case Album => "album"
    case Artist => "artist"
    case Playlist => "playlist"
    case Track => "track"
    case User => "user"
  }

  /** Different kinds have different discriminators. */
  lemma LowerNameInjective(t: ItemType, u: ItemType)
    requires LowerName(t) == LowerName(u)
    ensures t == u
  {
  }

  /** `Enum.Parse(typeof(ItemType), s, true)` for a name: the member whose name
      equals `s` when case is ignored; `None` when no member has that name. */
  function ParseItemType(s: string): (r: Option<ItemType>)
    ensures r.Some? ==> Text.EqualsIgnoreCase(Name(r.value), s)
    ensures r.None? <==> forall t: ItemType :: !Text.EqualsIgnoreCase(Name(t), s)
  {
    var k := Text.Lower(s);
    if k == LowerName(Album) then Some(Album)
    else if k == LowerName(Artist) then Some(Artist)
    else if k == LowerName(Playlist) then Some(Playlist)
    else if k == LowerName(Track) then Some(Track)
    else if k == LowerName(User) then Some(User)
    else None
  }

  /** Parsing a member's name, written in any case, gives that member back. */
  lemma ParseItemTypeName(t: ItemType, s: string)
    requires Text.EqualsIgnoreCase(Name(t), s)
    ensures ParseItemType(s) == Some(t)
  {
    var r := ParseItemType(s);
    LowerNameInjective(t, r.value);
  }

  /** The parse looks at the name only up to case. */
  lemma ParseItemTypeIgnoresCase(s: string, s': string)
    requires Text.EqualsIgnoreCase(s, s')
    ensures ParseItemType(s) == ParseItemType(s')
  {
  }

  // ---------------------------------------------------------------- Context

  datatype Context = Context(externalUrl: ExternalUrl, fullDetailUri: NString, kind: ItemType, uri: NString) {
    function ToString(): string {
      Name(kind)
    }
  }

  /** `new Context()` */
  const DefaultContext: Context := Context(DefaultExternalUrl, Some(""), Album, Some(""))

  /** The `type` property of a context bag: absent means Album; a name is parsed
      without regard to case; null, a non-string or an unknown name throws. */
  function KindOr(b: Bag): (r: Decoded<ItemType>)
    ensures !Has(b, "type") ==> r == Ok(Album)
    ensures Has(b, "type") ==>
      (r.Ok? <==> Get(b, "type").value.VStr? && ParseItemType(Get(b, "type").value.s).Some?)
    ensures r.Ok? && Has(b, "type") ==> r == Ok(ParseItemType(Get(b, "type").value.s).value)
  {
    match Get(b, "type")
    case None => Ok(Album)
    case Some(VStr(s)) =>
      (match ParseItemType(s)
       case Some(t) => Ok(t)
       case None => Err(UnknownItemType))
    case Some(_) => Err(Malformed("type"))
  }

  /** `new Context(Object)`: each field decoded in declaration order. */
  function DecodeContext(b: Bag): (r: Decoded<Context>)
    ensures b.VNull? ==> r == Ok(DefaultContext)
    ensures r.Ok? ==> KindOr(b) == Ok(r.value.kind)
    ensures KindOr(b).Err? ==> r.Err?
    ensures r.Ok? ==> StringOr(b, "href", Some("")) == Ok(r.value.fullDetailUri)
    ensures r.Ok? ==> StringOr(b, "uri", Some("")) == Ok(r.value.uri)
    ensures r.Ok? ==>
      BagOf(b, "external_urls").Ok? && DecodeExternalUrl(BagOf(b, "external_urls").value) == Ok(r.value.externalUrl)
    ensures b.VObj? && r.Err? ==>
      || BagOf(b, "external_urls").Err? || DecodeExternalUrl(BagOf(b, "external_urls").value).Err?
      || StringOr(b, "href", Some("")).Err?
      || KindOr(b).Err?
      || StringOr(b, "uri", Some("")).Err?
  {
    if b.VNull? then Ok(DefaultContext)
    else
      var eb :- BagOf(b, "external_urls");
      var externalUrl :- DecodeExternalUrl(eb);
      var href :- StringOr(b, "href", Some(""));
      var kind :- KindOr(b);
      var uri :- StringOr(b, "uri", Some(""));
      Ok(Context(externalUrl, href, kind, uri))
  }

  /** A bag with no properties decodes to the same context as `new Context()`:
      an album context. */
  lemma EmptyContext()
    ensures DecodeContext(VObj([])) == Ok(DefaultContext)
    ensures DefaultContext.kind == Album
  {
    var e: Bag := VObj([]);
    assert forall key :: !Has(e, key);
  }

  /** A bag naming its kind in any letter case decodes to that kind. */
  lemma DecodeContextKind(b: Bag, t: ItemType)
    requires Has(b, "type") && Get(b, "type").value.VStr?
    requires Text.EqualsIgnoreCase(Name(t), Get(b, "type").value.s)
    requires DecodeContext(b).Ok?
    ensures DecodeContext(b).value.kind == t
  {
    ParseItemTypeName(t, Get(b, "type").value.s);
  }

  /** A `type` that names no kind makes the constructor throw. */
  lemma DecodeContextUnknownKind(b: Bag)
    requires Has(b, "type") && Get(b, "type").value.VStr?
    requires forall t: ItemType :: !Text.EqualsIgnoreCase(Name(t), Get(b, "type").value.s)
    ensures DecodeContext(b).Err?
  {
  }
}
