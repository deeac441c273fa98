/** User.cs: a Spotify user, public or private profile. */
module Users {
  import opened Wrappers
  import opened Bags
  import opened Primitives
  import opened Dates
  import Contexts

  datatype User = User(
    birthdate: Date,
    country: NString,
    displayName: NString,
    email: NString,
    externalUrl: ExternalUrl,
    followers: FollowerInfo,
    fullDetailUri: NString,
    id: NString,
    images: seq<ImageInfo>,
    productSubscription: NString,
    uri: NString)
  {
    /** `Type`, fixed by the constructor and never read from the bag. */
    function Kind(): Contexts.ItemType {
      Contexts.User
    }

    function ToString(): NString {
      id
    }
  }

  /** `new User()`: `Email` and `ProductSubscription` are never assigned and
      stay null. */
  const DefaultUser: User :=
    User(MinDate, Some(""), Some(""), None, DefaultExternalUrl, DefaultFollowerInfo, Some(""), Some(""), [], None, Some(""))

  /** `new User(Object)`: the birthdate first, then the remaining fields in
      declaration order; absent strings, `email` and `product` included, become "". */
  function DecodeUser(b: Bag): (r: Decoded<User>)
    ensures b.VNull? ==> r == Ok(DefaultUser)
    ensures r.Ok? && b.VObj? ==> DateOr(b, "birthdate", MinDate) == Ok(r.value.birthdate)
    ensures r.Ok? ==> StringOr(b, "country", Some("")) == Ok(r.value.country)
    ensures r.Ok? ==> StringOr(b, "display_name", Some("")) == Ok(r.value.displayName)
    ensures r.Ok? && b.VObj? ==> StringOr(b, "email", Some("")) == Ok(r.value.email)
    ensures r.Ok? ==>
      BagOf(b, "external_urls").Ok? && DecodeExternalUrl(BagOf(b, "external_urls").value) == Ok(r.value.externalUrl)
    ensures r.Ok? ==> BagOf(b, "followers").Ok? && DecodeFollowerInfo(BagOf(b, "followers").value) == Ok(r.value.followers)
    ensures r.Ok? ==> StringOr(b, "href", Some("")) == Ok(r.value.fullDetailUri)
    ensures r.Ok? ==> StringOr(b, "id", Some("")) == Ok(r.value.id)
    ensures r.Ok? ==> ArrayOr(b, "images").Ok? && DecodeImages("images", ArrayOr(b, "images").value) == Ok(r.value.images)
    ensures r.Ok? && b.VObj? ==> StringOr(b, "product", Some("")) == Ok(r.value.productSubscription)
    ensures r.Ok? ==> StringOr(b, "uri", Some("")) == Ok(r.value.uri)
    ensures b.VObj? && r.Err? ==>
      || DateOr(b, "birthdate", MinDate).Err?
      || StringOr(b, "country", Some("")).Err?
      || StringOr(b, "display_name", Some("")).Err?
      || StringOr(b, "email", Some("")).Err?
      || BagOf(b, "external_urls").Err? || DecodeExternalUrl(BagOf(b, "external_urls").value).Err?
      || BagOf(b, "followers").Err? || DecodeFollowerInfo(BagOf(b, "followers").value).Err?
      || StringOr(b, "href", Some("")).Err?
      || StringOr(b, "id", Some("")).Err?
      || ArrayOr(b, "images").Err? || DecodeImages("images", ArrayOr(b, "images").value).Err?
      || StringOr(b, "product", Some("")).Err?
      || StringOr(b, "uri", Some("")).Err?
  {
    if b.VNull? then Ok(DefaultUser)
    else
      var birthdate :- DateOr(b, "birthdate", MinDate);
      var country :- StringOr(b, "country", Some(""));
      var displayName :- StringOr(b, "display_name", Some(""));
      var email :- StringOr(b, "email", Some(""));
      var eb :- BagOf(b, "external_urls");
      var externalUrl :- DecodeExternalUrl(eb);
      var fb :- BagOf(b, "followers");
      var followers :- DecodeFollowerInfo(fb);
      var href :- StringOr(b, "href", Some(""));
      var id :- StringOr(b, "id", Some(""));
      var ims :- ArrayOr(b, "images");
      var images :- DecodeImages("images", ims);
      var product :- StringOr(b, "product", Some(""));
      var uri :- StringOr(b, "uri", Some(""));
      Ok(User(birthdate, country, displayName, email, externalUrl, followers, href, id, images, product, uri))
  }

  /** `Properties[key] != null ? new User((PSObject)Properties[key].Value) : new User()` */
  function UserAt(b: Bag, key: string): (r: Decoded<User>)
    ensures !Has(b, key) ==> r == Ok(DefaultUser)
    ensures BagOf(b, key).Ok? ==> r == DecodeUser(BagOf(b, key).value)
    ensures BagOf(b, key).Err? ==> r.Err?
  {
    var ub :- BagOf(b, key);
    DecodeUser(ub)
  }

  // ---------------------------------------------------------------- properties

  /** A null bag and an empty one differ: only the bag constructor assigns
      `Email` and `ProductSubscription`. */
  lemma NullUserDiffersFromEmptyUser()
    ensures DecodeUser(VNull) == Ok(DefaultUser)
    ensures DecodeUser(VObj([])).Ok?
    ensures DecodeUser(VObj([])).value.email == Some("") && DefaultUser.email == None
    ensures DecodeUser(VObj([])).value.productSubscription == Some("") && DefaultUser.productSubscription == None
    ensures DecodeUser(VObj([])) != DecodeUser(VNull)
  {
    var e: Bag := VObj([]);
    assert forall key :: !Has(e, key);
  }

  /** A birthdate `YYYY-MM-DD` is that day; with no `birthdate` the default
      0001-01-01 stays. */
  lemma UserBirthdate(b: Bag, y: string, m: string, d: string)
    requires b.VObj? && DecodeUser(b).Ok?
    requires Numeral(y) && Numeral(m) && Numeral(d) && ValidCivil(NumeralValue(y), NumeralValue(m), NumeralValue(d))
    ensures Get(b, "birthdate") == Some(VStr(y + "-" + m + "-" + d)) ==>
      DecodeUser(b).value.birthdate == Civil(NumeralValue(y), NumeralValue(m), NumeralValue(d))
    ensures !Has(b, "birthdate") ==> DecodeUser(b).value.birthdate == MinDate
  {
    if Get(b, "birthdate") == Some(VStr(y + "-" + m + "-" + d)) {
      SplitDateDay("birthdate", y, m, d, MinDate);
    }
  }

  /** The user depends on the bag only through the keys it looks up. */
  lemma UserCongruence(b: Bag, b': Bag)
    requires b.VNull? <==> b'.VNull?
    requires DateOr(b, "birthdate", MinDate) == DateOr(b', "birthdate", MinDate)
    requires StringOr(b, "country", Some("")) == StringOr(b', "country", Some(""))
    requires StringOr(b, "display_name", Some("")) == StringOr(b', "display_name", Some(""))
    requires StringOr(b, "email", Some("")) == StringOr(b', "email", Some(""))
    requires BagOf(b, "external_urls") == BagOf(b', "external_urls")
    requires BagOf(b, "followers") == BagOf(b', "followers")
    requires StringOr(b, "href", Some("")) == StringOr(b', "href", Some(""))
    requires StringOr(b, "id", Some("")) == StringOr(b', "id", Some(""))
    requires ArrayOr(b, "images") == ArrayOr(b', "images")
    requires StringOr(b, "product", Some("")) == StringOr(b', "product", Some(""))
    requires StringOr(b, "uri", Some("")) == StringOr(b', "uri", Some(""))
    ensures DecodeUser(b) == DecodeUser(b')
  {
  }

  /** Two bags that agree on every key but `type` give the same user. */
  lemma UserIgnoresType(b: Bag, b': Bag)
    requires b.VNull? <==> b'.VNull?
    requires forall key :: key != "type" ==> Get(b, key) == Get(b', key)
    ensures DecodeUser(b) == DecodeUser(b')
  {
    AgreeExcept(b, b', "type", "birthdate");
    AgreeExcept(b, b', "type", "country");
    AgreeExcept(b, b', "type", "display_name");
    AgreeExcept(b, b', "type", "email");
    AgreeExcept(b, b', "type", "external_urls");
    AgreeExcept(b, b', "type", "followers");
    AgreeExcept(b, b', "type", "href");
    AgreeExcept(b, b', "type", "id");
    AgreeExcept(b, b', "type", "images");
    AgreeExcept(b, b', "type", "product");
    AgreeExcept(b, b', "type", "uri");
    FieldRulesAgree(b, b', "country");
    FieldRulesAgree(b, b', "display_name");
    FieldRulesAgree(b, b', "email");
    FieldRulesAgree(b, b', "external_urls");
    FieldRulesAgree(b, b', "followers");
    FieldRulesAgree(b, b', "href");
    FieldRulesAgree(b, b', "id");
    FieldRulesAgree(b, b', "images");
    FieldRulesAgree(b, b', "product");
    FieldRulesAgree(b, b', "uri");
    assert DateOr(b, "birthdate", MinDate) == DateOr(b', "birthdate", MinDate);
    UserCongruence(b, b');
  }
}
