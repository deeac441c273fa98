/** Artist.cs: an artist as the catalogue describes it. */
module Artists {
  import opened Wrappers
  import opened Bags
  import opened Primitives
  import Contexts

  datatype Artist = Artist(
    externalUrl: ExternalUrl,
    fullDetailUri: NString,
    followers: FollowerInfo,
    genres: seq<string>,
    id: NString,
    images: seq<ImageInfo>,
    name: NString,
    popularity: Popularity,
    uri: NString)
  {
    /** `Type`, fixed by the constructor and never read from the bag. */
    function Kind(): Contexts.ItemType {
      Contexts.Artist
    }

    function ToString(): NString {
      name
    }

    /** The `Popularity` setter: stores a value in 0..100 and changes nothing
        else; any other value throws and the artist keeps its old value. */
    function SetPopularity(value: int): (r: Decoded<Artist>)
      ensures r.Ok? <==> 0 <= value <= 100
      ensures r.Ok? ==> r.value.popularity == value && r.value == this.(popularity := value)
      ensures r.Err? ==> r.error == PopularityOutOfRange(value)
    {
      var p :- CheckPopularity(value);
      Ok(this.(popularity := p))
    }
  }

  /** `new Artist()` */
  const DefaultArtist: Artist :=
    Artist(DefaultExternalUrl, Some(""), DefaultFollowerInfo, [], Some(""), [], Some(""), 0, Some(""))

  /** `new Artist(Object)`: each field decoded in declaration order. */
  function DecodeArtist(b: Bag): (r: Decoded<Artist>)
    ensures b.VNull? ==> r == Ok(DefaultArtist)
    ensures Has(b, "popularity") && Get(b, "popularity").value.VInt? && !(0 <= Get(b, "popularity").value.i <= 100)
      ==> r.Err?
    ensures r.Ok? ==> r.value.popularity == IntOrZero(b, "popularity")
    ensures r.Ok? ==> ArrayOr(b, "genres").Ok? && StringList("genres", ArrayOr(b, "genres").value) == Ok(r.value.genres)
    ensures r.Ok? ==> ArrayOr(b, "images").Ok? && DecodeImages("images", ArrayOr(b, "images").value) == Ok(r.value.images)
    ensures r.Ok? ==> BagOf(b, "followers").Ok? && DecodeFollowerInfo(BagOf(b, "followers").value) == Ok(r.value.followers)
    ensures r.Ok? ==> BagOf(b, "external_urls").Ok? && DecodeExternalUrl(BagOf(b, "external_urls").value) == Ok(r.value.externalUrl)
    ensures r.Ok? ==> StringOr(b, "href", Some("")) == Ok(r.value.fullDetailUri)
    ensures r.Ok? ==> StringOr(b, "id", Some("")) == Ok(r.value.id)
    ensures r.Ok? ==> StringOr(b, "name", Some("")) == Ok(r.value.name)
    ensures r.Ok? ==> StringOr(b, "uri", Some("")) == Ok(r.value.uri)
    ensures b.VObj? && r.Err? ==>
      || BagOf(b, "external_urls").Err? || DecodeExternalUrl(BagOf(b, "external_urls").value).Err?
      || StringOr(b, "href", Some("")).Err?
      || BagOf(b, "followers").Err? || DecodeFollowerInfo(BagOf(b, "followers").value).Err?
      || ArrayOr(b, "genres").Err? || StringList("genres", ArrayOr(b, "genres").value).Err?
      || StringOr(b, "id", Some("")).Err?
      || ArrayOr(b, "images").Err? || DecodeImages("images", ArrayOr(b, "images").value).Err?
      || StringOr(b, "name", Some("")).Err?
      || CheckPopularity(IntOrZero(b, "popularity")).Err?
      || StringOr(b, "uri", Some("")).Err?
  {
    if b.VNull? then Ok(DefaultArtist)
    else
      var eb :- BagOf(b, "external_urls");
      var externalUrl :- DecodeExternalUrl(eb);
      var href :- StringOr(b, "href", Some(""));
      var fb :- BagOf(b, "followers");
      var followers :- DecodeFollowerInfo(fb);
      var gs :- ArrayOr(b, "genres");
      var genres :- StringList("genres", gs);
      var id :- StringOr(b, "id", Some(""));
      var ims :- ArrayOr(b, "images");
      var images :- DecodeImages("images", ims);
      var name :- StringOr(b, "name", Some(""));
      var popularity :- CheckPopularity(IntOrZero(b, "popularity"));
      var uri :- StringOr(b, "uri", Some(""));
      Ok(Artist(externalUrl, href, followers, genres, id, images, name, popularity, uri))
  }

  /** `new Artist((PSObject)i)` for one list element. */
  function ArtistOf(key: string, v: Value): (r: Decoded<Artist>)
    ensures r.Ok? <==> CastBag(key, v).Ok? && DecodeArtist(v).Ok?
    ensures r.Ok? ==> r == DecodeArtist(v)
  {
    var e :- CastBag(key, v);
    DecodeArtist(e)
  }

  /** `.Select(i => new Artist((PSObject)i)).ToList()`: one artist per element,
      in order. */
  function DecodeArtists(key: string, xs: seq<Value>): (r: Decoded<seq<Artist>>)
    ensures r.Ok? <==> forall j :: 0 <= j < |xs| ==> ArtistOf(key, xs[j]).Ok?
    ensures r.Ok? ==> |r.value| == |xs|
    ensures r.Ok? ==> forall j :: 0 <= j < |xs| ==> Ok(r.value[j]) == ArtistOf(key, xs[j])
  {
    var rs := seq(|xs|, j requires 0 <= j < |xs| => ArtistOf(key, xs[j]));
    assert forall j :: 0 <= j < |xs| ==> rs[j] == ArtistOf(key, xs[j]);
    assert (forall j :: 0 <= j < |rs| ==> rs[j].Ok?) <==> (forall j :: 0 <= j < |xs| ==> ArtistOf(key, xs[j]).Ok?);
    Collect(rs)
  }

  // ---------------------------------------------------------------- properties

  /** The artist is a function of the results of its field rules. */
  lemma ArtistCongruence(b: Bag, b': Bag)
    requires b.VNull? <==> b'.VNull?
    requires BagOf(b, "external_urls") == BagOf(b', "external_urls")
    requires StringOr(b, "href", Some("")) == StringOr(b', "href", Some(""))
    requires BagOf(b, "followers") == BagOf(b', "followers")
    requires ArrayOr(b, "genres") == ArrayOr(b', "genres")
    requires StringOr(b, "id", Some("")) == StringOr(b', "id", Some(""))
    requires ArrayOr(b, "images") == ArrayOr(b', "images")
    requires StringOr(b, "name", Some("")) == StringOr(b', "name", Some(""))
    requires IntOrZero(b, "popularity") == IntOrZero(b', "popularity")
    requires StringOr(b, "uri", Some("")) == StringOr(b', "uri", Some(""))
    ensures DecodeArtist(b) == DecodeArtist(b')
  {
  }

  /** The artist depends on the bag only through the keys it looks up: two
      bags that agree on every key but `type` decode alike. */
  lemma ArtistIgnoresType(b: Bag, b': Bag)
    requires b.VNull? <==> b'.VNull?
    requires forall key :: key != "type" ==> Get(b, key) == Get(b', key)
    ensures DecodeArtist(b) == DecodeArtist(b')
  {
    AgreeExcept(b, b', "type", "external_urls");
    AgreeExcept(b, b', "type", "href");
    AgreeExcept(b, b', "type", "followers");
    AgreeExcept(b, b', "type", "genres");
    AgreeExcept(b, b', "type", "id");
    AgreeExcept(b, b', "type", "images");
    AgreeExcept(b, b', "type", "name");
    AgreeExcept(b, b', "type", "popularity");
    AgreeExcept(b, b', "type", "uri");
    FieldRulesAgree(b, b', "external_urls");
    FieldRulesAgree(b, b', "href");
    FieldRulesAgree(b, b', "followers");
    FieldRulesAgree(b, b', "genres");
    FieldRulesAgree(b, b', "id");
    FieldRulesAgree(b, b', "images");
    FieldRulesAgree(b, b', "name");
    FieldRulesAgree(b, b', "popularity");
    FieldRulesAgree(b, b', "uri");
    ArtistCongruence(b, b');
  }

  /** In particular a `type` property inserted anywhere changes nothing. */
  lemma ArtistIgnoresTypeKey(ps: seq<Prop>, p: Prop, qs: seq<Prop>)
    requires Names(p, "type")
    ensures DecodeArtist(VObj(ps + [p] + qs)) == DecodeArtist(VObj(ps + qs))
  {
    GetIgnoresProp(ps, p, qs);
    ArtistIgnoresType(VObj(ps + [p] + qs), VObj(ps + qs));
  }

  /** A bag with no properties decodes to the same artist as `new Artist()`. */
  lemma EmptyArtist()
    ensures DecodeArtist(VObj([])) == Ok(DefaultArtist)
  {
    var e: Bag := VObj([]);
    assert forall key :: !Has(e, key);
  }

  /** The popularity of a decoded artist is the bag's int when there is one and
      0 otherwise; it never leaves 0..100. */
  lemma ArtistPopularity(b: Bag)
    requires DecodeArtist(b).Ok?
    ensures 0 <= DecodeArtist(b).value.popularity <= 100
    ensures Has(b, "popularity") && Get(b, "popularity").value.VInt? ==>
      DecodeArtist(b).value.popularity == Get(b, "popularity").value.i
    ensures !(Has(b, "popularity") && Get(b, "popularity").value.VInt?) ==>
      DecodeArtist(b).value.popularity == 0
  {
  }

  /** One genre per element of the `genres` array, in order; none without one. */
  lemma ArtistGenres(b: Bag)
    requires DecodeArtist(b).Ok?
    ensures !Has(b, "genres") ==> DecodeArtist(b).value.genres == []
    ensures Has(b, "genres") ==>
      Get(b, "genres").value.VArr? &&
      |DecodeArtist(b).value.genres| == |Get(b, "genres").value.elems| &&
      forall j :: 0 <= j < |Get(b, "genres").value.elems| ==>
        Render("genres", Get(b, "genres").value.elems[j]) == Ok(DecodeArtist(b).value.genres[j])
  {
  }
}
