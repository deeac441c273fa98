/** The leaf value objects (ExternalUrl.cs, ExternalId.cs, ImageInfo.cs,
    FollowerInfo.cs, Copyright.cs, Snapshot.cs). Each has a default (its
    parameterless constructor) and a decoder (its `PSObject` constructor, which
    starts from the default and overwrites it when the bag is not null). A C#
    property called `Type` is called `kind` here. */
module Primitives {
  import opened Wrappers
  import opened Bags
  import Text

  // ---------------------------------------------------------------- Popularity

  /** The range the `Popularity` setters of Album, Artist and Track accept. */
  type Popularity = p: int | 0 <= p <= 100

  /** The `Popularity` setter's guard: a value in 0..100 is stored as it is,
      anything else throws; nothing is ever clamped. */
  function CheckPopularity(value: int): (r: Decoded<Popularity>)
    ensures r.Ok? <==> 0 <= value <= 100
    ensures r.Ok? ==> r.value == value
    ensures r.Err? ==> r.error == PopularityOutOfRange(value)
  {
    if 0 <= value <= 100 then Ok(value) else Err(PopularityOutOfRange(value))
  }

  // ---------------------------------------------------------------- ExternalUrl

  datatype ExternalUrl = ExternalUrl(kind: NString, url: NString) {
    function ToString(): NString {
      url
    }
  }

  /** `new ExternalUrl()` */
  const DefaultExternalUrl: ExternalUrl := ExternalUrl(Some(""), Some(""))

  /** Only the `spotify` key is recognised; the kind is then "spotify" and the
      url that key's value. */
  function DecodeExternalUrl(b: Bag): (r: Decoded<ExternalUrl>)
    ensures !Has(b, "spotify") ==> r == Ok(DefaultExternalUrl)
    ensures Has(b, "spotify") ==>
      (r.Ok? <==> CastString("spotify", Get(b, "spotify").value).Ok?)
    ensures r.Ok? && Has(b, "spotify") ==>
      r.value == ExternalUrl(Some("spotify"), CastString("spotify", Get(b, "spotify").value).value)
  {
    if b.VNull? || !Has(b, "spotify") then Ok(DefaultExternalUrl)
    else
      var url :- CastString("spotify", Get(b, "spotify").value);
      Ok(ExternalUrl(Some("spotify"), url))
  }

  /** Every key but `spotify` is ignored: adding one anywhere changes nothing. */
  lemma ExternalUrlIgnoresOtherKeys(ps: seq<Prop>, p: Prop, qs: seq<Prop>)
    requires !Names(p, "spotify")
    ensures DecodeExternalUrl(VObj(ps + [p] + qs)) == DecodeExternalUrl(VObj(ps + qs))
  {
    GetIgnoresOthers(ps, p, qs, "spotify");
  }

  // ---------------------------------------------------------------- ExternalId

  datatype ExternalId = ExternalId(kind: NString, id: NString) {
    function ToString(): NString {
      id
    }
  }

  /** `new ExternalId()` */
  const DefaultExternalId: ExternalId := ExternalId(Some(""), Some(""))

  /** The identifier stored under `key`, tagged with that key. */
  function TaggedId(b: Bag, key: string): (r: Decoded<ExternalId>)
    requires Has(b, key)
    ensures r.Ok? <==> CastString(key, Get(b, key).value).Ok?
    ensures r.Ok? ==> r.value == ExternalId(Some(key), CastString(key, Get(b, key).value).value)
  {
    var id :- CastString(key, Get(b, key).value);
    Ok(ExternalId(Some(key), id))
  }

  /** First match among `isrc`, `ean`, `upc`, in that order. */
  function DecodeExternalId(b: Bag): (r: Decoded<ExternalId>)
    ensures Has(b, "isrc") ==> r == TaggedId(b, "isrc")
    ensures !Has(b, "isrc") && Has(b, "ean") ==> r == TaggedId(b, "ean")
    ensures !Has(b, "isrc") && !Has(b, "ean") && Has(b, "upc") ==> r == TaggedId(b, "upc")
    ensures !Has(b, "isrc") && !Has(b, "ean") && !Has(b, "upc") ==> r == Ok(DefaultExternalId)
  {
    if b.VNull? then Ok(DefaultExternalId)
    else if Has(b, "isrc") then TaggedId(b, "isrc")
    else if Has(b, "ean") then TaggedId(b, "ean")
    else if Has(b, "upc") then TaggedId(b, "upc")
    else Ok(DefaultExternalId)
  }

  /** The kind of a decoded identifier is always the key it was read from, and
      that key is the first of the three the bag has. */
  lemma ExternalIdKindIsFirstKey(b: Bag)
    requires DecodeExternalId(b).Ok?
    ensures var e := DecodeExternalId(b).value;
      && (e.kind == Some("isrc") <==> Has(b, "isrc"))
      && (e.kind == Some("ean") <==> !Has(b, "isrc") && Has(b, "ean"))
      && (e.kind == Some("upc") <==> !Has(b, "isrc") && !Has(b, "ean") && Has(b, "upc"))
      && (e.kind == Some("") <==> !Has(b, "isrc") && !Has(b, "ean") && !Has(b, "upc"))
  {
  }

  /** Keys other than the three identifier kinds are ignored. */
  lemma ExternalIdIgnoresOtherKeys(ps: seq<Prop>, p: Prop, qs: seq<Prop>)
    requires !Names(p, "isrc") && !Names(p, "ean") && !Names(p, "upc")
    ensures DecodeExternalId(VObj(ps + [p] + qs)) == DecodeExternalId(VObj(ps + qs))
  {
    GetIgnoresOthers(ps, p, qs, "isrc");
    GetIgnoresOthers(ps, p, qs, "ean");
    GetIgnoresOthers(ps, p, qs, "upc");
  }

  // ---------------------------------------------------------------- ImageInfo

  datatype ImageInfo = ImageInfo(height: int32, url: NString, width: int32) {
    function ToString(): NString {
      url
    }
  }

  /** `new ImageInfo()` */
  const DefaultImageInfo: ImageInfo := ImageInfo(0, Some(""), 0)

  function DecodeImageInfo(b: Bag): (r: Decoded<ImageInfo>)
    ensures b.VNull? ==> r == Ok(DefaultImageInfo)
    ensures r.Ok? <==> StringOr(b, "url", Some("")).Ok?
    ensures r.Ok? ==> r.value.height == IntOrZero(b, "height") && r.value.width == IntOrZero(b, "width")
    ensures r.Ok? ==> r.value.url == StringOr(b, "url", Some("")).value
  {
    if b.VNull? then Ok(DefaultImageInfo)
    else
      var height := IntOrZero(b, "height");
      var url :- StringOr(b, "url", Some(""));
      var width := IntOrZero(b, "width");
      Ok(ImageInfo(height, url, width))
  }

  /** `new ImageInfo((PSObject)i)` for one list element. */
  function ImageOf(key: string, v: Value): (r: Decoded<ImageInfo>)
    ensures r.Ok? <==> CastBag(key, v).Ok? && DecodeImageInfo(v).Ok?
    ensures r.Ok? ==> r == DecodeImageInfo(v)
  {
    var e :- CastBag(key, v);
    DecodeImageInfo(e)
  }

  /** `.Select(i => new ImageInfo((PSObject)i)).ToList()`: one image per
      element, in order. */
  function DecodeImages(key: string, xs: seq<Value>): (r: Decoded<seq<ImageInfo>>)
    ensures r.Ok? <==> forall j :: 0 <= j < |xs| ==> ImageOf(key, xs[j]).Ok?
    ensures r.Ok? ==> |r.value| == |xs|
    ensures r.Ok? ==> forall j :: 0 <= j < |xs| ==> Ok(r.value[j]) == ImageOf(key, xs[j])
  {
    var rs := seq(|xs|, j requires 0 <= j < |xs| => ImageOf(key, xs[j]));
    assert forall j :: 0 <= j < |xs| ==> rs[j] == ImageOf(key, xs[j]);
    assert (forall j :: 0 <= j < |rs| ==> rs[j].Ok?) <==> (forall j :: 0 <= j < |xs| ==> ImageOf(key, xs[j]).Ok?);
    Collect(rs)
  }

  // ---------------------------------------------------------------- FollowerInfo

  datatype FollowerInfo = FollowerInfo(fullDetailUri: NString, totalFollowers: int32) {
    /** `TotalFollowers.ToString()`: the decimal rendering, which parses back. */
    function ToString(): (s: string)
      ensures Text.ParseDecimal(s) == Some(totalFollowers as int)
    {
      Text.DecimalRoundTrip(totalFollowers);
      Text.DecimalString(totalFollowers)
    }
  }

  /** `new FollowerInfo()` */
  const DefaultFollowerInfo: FollowerInfo := FollowerInfo(Some(""), 0)

  function DecodeFollowerInfo(b: Bag): (r: Decoded<FollowerInfo>)
    ensures b.VNull? ==> r == Ok(DefaultFollowerInfo)
    ensures r.Ok? <==> StringOr(b, "href", Some("")).Ok?
    ensures r.Ok? ==> r.value.fullDetailUri == StringOr(b, "href", Some("")).value
    ensures r.Ok? ==> r.value.totalFollowers == IntOrZero(b, "total")
  {
    if b.VNull? then Ok(DefaultFollowerInfo)
    else
      var href :- StringOr(b, "href", Some(""));
      Ok(FollowerInfo(href, IntOrZero(b, "total")))
  }

  // ---------------------------------------------------------------- Copyright

  datatype Copyright = Copyright(text: NString, kind: NString) {
    function ToString(): NString {
      text
    }
  }

  /** `new Copyright()` */
  const DefaultCopyright: Copyright := Copyright(Some(""), Some(""))

  function DecodeCopyright(b: Bag): (r: Decoded<Copyright>)
    ensures b.VNull? ==> r == Ok(DefaultCopyright)
    ensures r.Ok? <==> StringOr(b, "text", Some("")).Ok? && StringOr(b, "type", Some("")).Ok?
    ensures r.Ok? ==> r.value.text == StringOr(b, "text", Some("")).value
    ensures r.Ok? ==> r.value.kind == StringOr(b, "type", Some("")).value
  {
    if b.VNull? then Ok(DefaultCopyright)
    else
      var text :- StringOr(b, "text", Some(""));
      var kind :- StringOr(b, "type", Some(""));
      Ok(Copyright(text, kind))
  }

  /** `new Copyright((PSObject)i)` for one list element. */
  function CopyrightOf(key: string, v: Value): (r: Decoded<Copyright>)
    ensures r.Ok? <==> CastBag(key, v).Ok? && DecodeCopyright(v).Ok?
    ensures r.Ok? ==> r == DecodeCopyright(v)
  {
    var e :- CastBag(key, v);
    DecodeCopyright(e)
  }

  /** `.Select(i => new Copyright((PSObject)i)).ToList()`: one copyright line
      per element, in order. */
  function DecodeCopyrights(key: string, xs: seq<Value>): (r: Decoded<seq<Copyright>>)
    ensures r.Ok? <==> forall j :: 0 <= j < |xs| ==> CopyrightOf(key, xs[j]).Ok?
    ensures r.Ok? ==> |r.value| == |xs|
    ensures r.Ok? ==> forall j :: 0 <= j < |xs| ==> Ok(r.value[j]) == CopyrightOf(key, xs[j])
  {
    var rs := seq(|xs|, j requires 0 <= j < |xs| => CopyrightOf(key, xs[j]));
    assert forall j :: 0 <= j < |xs| ==> rs[j] == CopyrightOf(key, xs[j]);
    assert (forall j :: 0 <= j < |rs| ==> rs[j].Ok?) <==> (forall j :: 0 <= j < |xs| ==> CopyrightOf(key, xs[j]).Ok?);
    Collect(rs)
  }

  // ---------------------------------------------------------------- Snapshot

  datatype Snapshot = Snapshot(id: NString) {
    function ToString(): NString {
      id
    }
  }

  /** `new Snapshot()` */
  const DefaultSnapshot: Snapshot := Snapshot(Some(""))

  function DecodeSnapshot(b: Bag): (r: Decoded<Snapshot>)
    ensures b.VNull? || !Has(b, "snapshot_id") ==> r == Ok(DefaultSnapshot)
    ensures Get(b, "snapshot_id") == Some(VNull) ==> r == Ok(Snapshot(None))
    ensures Has(b, "snapshot_id") && Get(b, "snapshot_id").value.VStr? ==>
      r == Ok(Snapshot(Some(Get(b, "snapshot_id").value.s)))
    ensures r.Err? <==>
      b.VObj? && Has(b, "snapshot_id") && !(Get(b, "snapshot_id").value.VNull? || Get(b, "snapshot_id").value.VStr?)
    ensures r.Err? ==> r.error == Malformed("snapshot_id")
  {
    if b.VNull? then Ok(DefaultSnapshot)
    else
      var id :- StringOr(b, "snapshot_id", Some(""));
      Ok(Snapshot(id))
  }
}
