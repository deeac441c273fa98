/** AuthenticationToken.cs: an OAuth access token, when it expires and which
    scopes it grants. The clock is a parameter: `now` is the reading of
    `DateTime.Now` the constructor takes. */
module Auth {
  import opened Wrappers
  import opened Bags
  import opened Times
  import Text

  datatype Token = Token(
    accessToken: NString,
    tokenType: NString,
    expiresOn: Ticks,
    refreshToken: NString,
    scopes: seq<string>)
  {
    /** `HasExpired` read at the instant `now`: strictly after the expiry. */
    predicate HasExpired(now: Ticks) {
      now > expiresOn
    }

    function ToString(): NString {
      accessToken
    }
  }

  /** `new AuthenticationToken()`: empty strings, no scopes, expiring at the
      instant it is made. */
  function DefaultToken(now: Ticks): (t: Token)
    ensures t.accessToken == Some("") && t.tokenType == Some("") && t.refreshToken == Some("")
    ensures t.scopes == []
    ensures !t.HasExpired(now)
    ensures forall later: Ticks :: later > now ==> t.HasExpired(later)
  {
    Token(Some(""), Some(""), now, Some(""), [])
  }

  /** `new AuthenticationToken(accessToken, tokenType, lifetime)`: the defaults,
      then the two strings and an expiry `lifetime` seconds after `now`;
      `AddSeconds` throws when that instant is outside the `DateTime` range. */
  function NewToken(accessToken: NString, tokenType: NString, lifetime: int32, now: Ticks): (r: Decoded<Token>)
    ensures r.Ok? <==> 0 <= now + lifetime * TicksPerSecond <= MaxTicks
    ensures r.Err? ==> r.error == TimeOutOfRange("TokenLifetime")
    ensures r.Ok? ==> r.value.accessToken == accessToken && r.value.tokenType == tokenType
    ensures r.Ok? ==> r.value.expiresOn - now == lifetime * TicksPerSecond
    ensures r.Ok? ==> r.value.refreshToken == Some("") && r.value.scopes == []
  {
    var expiresOn :- AddSeconds("TokenLifetime", now, lifetime);
    Ok(DefaultToken(now).(accessToken := accessToken, tokenType := tokenType, expiresOn := expiresOn))
  }

  /** `expires_in`, present, is unboxed as an `int` (anything else throws) and
      added to the clock reading in seconds; absent, the token expires now. */
  function ExpiresOr(b: Bag, now: Ticks): (r: Decoded<Ticks>)
    ensures !Has(b, "expires_in") ==> r == Ok(now)
    ensures Has(b, "expires_in") && !Get(b, "expires_in").value.VInt? ==> r == Err(Malformed("expires_in"))
    ensures Has(b, "expires_in") && Get(b, "expires_in").value.VInt? ==>
      r == AddSeconds("expires_in", now, Get(b, "expires_in").value.i)
  {
    match Get(b, "expires_in")
    case None => Ok(now)
    case Some(VInt(n)) => AddSeconds("expires_in", now, n)
    case Some(_) => Err(Malformed("expires_in"))
  }

  /** `scope`, present, is cast to a string and split at every single space;
      null throws on the `Split` call, and an absent key gives no scopes. Joining
      the scopes with spaces gives the string back, and there is one more scope
      than there are spaces, empty ones included. */
  function ScopesOr(b: Bag): (r: Decoded<seq<string>>)
    ensures !Has(b, "scope") ==> r == Ok([])
    ensures r.Err? <==> Has(b, "scope") && !Get(b, "scope").value.VStr?
    ensures r.Ok? && Has(b, "scope") ==>
      var s := Get(b, "scope").value.s;
      && Text.Join(r.value, ' ') == s
      && |r.value| == Text.Occurrences(s, ' ') + 1
      && forall j :: 0 <= j < |r.value| ==> ' ' !in r.value[j]
  {
    match Get(b, "scope")
    case None => Ok([])
    case Some(VStr(s)) =>
      Text.JoinSplit(s, ' ');
      Text.SplitParts(s, ' ');
      Ok(Text.Split(s, ' '))
    case Some(_) => Err(Malformed("scope"))
  }

  /** `new AuthenticationToken(Object)` with the clock reading `now`: the
      defaults, then each field overwritten in declaration order. */
  function DecodeToken(b: Bag, now: Ticks): (r: Decoded<Token>)
    ensures b.VNull? ==> r == Ok(DefaultToken(now))
    ensures r.Ok? ==> StringOr(b, "access_token", Some("")) == Ok(r.value.accessToken)
    ensures r.Ok? ==> StringOr(b, "token_type", Some("")) == Ok(r.value.tokenType)
    ensures r.Ok? ==> ExpiresOr(b, now) == Ok(r.value.expiresOn)
    ensures r.Ok? ==> StringOr(b, "refresh_token", Some("")) == Ok(r.value.refreshToken)
    ensures r.Ok? ==> ScopesOr(b) == Ok(r.value.scopes)
    ensures b.VObj? && r.Err? ==>
      || StringOr(b, "access_token", Some("")).Err?
      || StringOr(b, "token_type", Some("")).Err?
      || ExpiresOr(b, now).Err?
      || StringOr(b, "refresh_token", Some("")).Err?
      || ScopesOr(b).Err?
  {
    if b.VNull? then Ok(DefaultToken(now))
    else
      var accessToken :- StringOr(b, "access_token", Some(""));
      var tokenType :- StringOr(b, "token_type", Some(""));
      var expiresOn :- ExpiresOr(b, now);
      var refreshToken :- StringOr(b, "refresh_token", Some(""));
      var scopes :- ScopesOr(b);
      Ok(Token(accessToken, tokenType, expiresOn, refreshToken, scopes))
  }

  // ---------------------------------------------------------------- properties

  /** Once expired, a token stays expired. */
  lemma ExpiryIsFinal(t: Token, now: Ticks, later: Ticks)
    requires t.HasExpired(now) && now <= later
    ensures t.HasExpired(later)
  {
  }

  /** A token made with a lifetime of zero or more seconds has not expired at
      the instant it was made, nor at any instant up to its lifetime, and has
      expired at every instant after it. */
  lemma NewTokenLifetime(accessToken: NString, tokenType: NString, lifetime: int32, now: Ticks, at: Ticks)
    requires 0 <= lifetime
    requires NewToken(accessToken, tokenType, lifetime, now).Ok?
    ensures !NewToken(accessToken, tokenType, lifetime, now).value.HasExpired(now)
    ensures NewToken(accessToken, tokenType, lifetime, now).value.HasExpired(at) <==> at > now + lifetime * TicksPerSecond
  {
  }

  /** A token lasting an hour has expired a second after the hour. */
  lemma HourLongToken(now: Ticks)
    requires now + 3601 * TicksPerSecond <= MaxTicks
    ensures NewToken(Some("a"), Some("Bearer"), 3600, now).Ok?
    ensures !NewToken(Some("a"), Some("Bearer"), 3600, now).value.HasExpired(now + 3600 * TicksPerSecond)
    ensures NewToken(Some("a"), Some("Bearer"), 3600, now).value.HasExpired(now + 3601 * TicksPerSecond)
  {
  }

  /** A response with a non-negative `expires_in` gives a token not yet expired
      when it is read, expiring that many seconds later; without the key the
      token expires at once. */
  lemma DecodedTokenLifetime(b: Bag, now: Ticks)
    requires DecodeToken(b, now).Ok?
    ensures !Has(b, "expires_in") ==> DecodeToken(b, now).value.expiresOn == now
    ensures Has(b, "expires_in") ==>
      && Get(b, "expires_in").value.VInt?
      && DecodeToken(b, now).value.expiresOn - now == Get(b, "expires_in").value.i * TicksPerSecond
    ensures Has(b, "expires_in") && Get(b, "expires_in").value.i >= 0 ==> !DecodeToken(b, now).value.HasExpired(now)
  {
  }

  /** The scopes are the `scope` string split at single spaces, in order:
      consecutive spaces give empty scopes, and no key gives none. */
  lemma DecodedScopes(b: Bag, now: Ticks)
    requires DecodeToken(b, now).Ok?
    ensures !Has(b, "scope") ==> DecodeToken(b, now).value.scopes == []
    ensures Has(b, "scope") ==>
      Get(b, "scope").value.VStr? && DecodeToken(b, now).value.scopes == Text.Split(Get(b, "scope").value.s, ' ')
  {
  }

  /** Two spaces in a row give an empty scope between them. */
  lemma DoubleSpaceGivesEmptyScope(a: string, c: string)
    requires ' ' !in a && ' ' !in c
    ensures Text.Split(a + " " + " " + c, ' ') == [a, "", c]
  {
    Text.SplitPrefix(a, " " + c, ' ');
    assert a + " " + " " + c == a + [' '] + (" " + c);
    Text.SplitPrefix("", c, ' ');
    assert "" + [' '] + c == " " + c;
    Text.SplitFree(c, ' ');
  }

  /** Strings other than the scopes default to "" when their key is missing. */
  lemma DecodedStringDefaults(b: Bag, now: Ticks)
    requires DecodeToken(b, now).Ok?
    ensures !Has(b, "access_token") ==> DecodeToken(b, now).value.accessToken == Some("")
    ensures !Has(b, "token_type") ==> DecodeToken(b, now).value.tokenType == Some("")
    ensures !Has(b, "refresh_token") ==> DecodeToken(b, now).value.refreshToken == Some("")
  {
  }
}
