/** Creating and verifying the API's tokens, in the compact form of section 7.1 of RFC 7515. HMAC and the
    JSON and text codecs are parameters. */
module Token {
  import opened Messages
  import opened Strings
  import opened Base64Url

  datatype AuthUser = AuthUser(userId: string, email: string, githubLogin: string, tier: string)

  /** A parsed payload; any claim may be missing. */
  datatype Claims = Claims(
    sub: Option<string>, email: Option<string>, githubLogin: Option<string>, tier: Option<string>, exp: Option<int>)

  /** What verification returns; the user id is the `sub` claim, present or not. */
  datatype Verified = Verified(userId: Option<string>, email: string, githubLogin: string, tier: string)

  datatype Platform = Platform(
    textEncode: string -> seq<Octet>,
    header: seq<Octet>,
    stringify: (AuthUser, int, int) -> seq<Octet>,
    parse: seq<Octet> -> Attempt<Claims>,
    sign: (string, seq<Octet>) -> seq<Octet>,
    verify: (string, seq<Octet>, seq<Octet>) -> bool)

  const THIRTY_DAYS := 30 * 24 * 60 * 60

  /** A signature verifies under the secret that made it, and the payload parses back. */
  ghost predicate Correct(p: Platform) {
    && (forall secret, data :: p.verify(secret, p.sign(secret, data), data))
    && (forall u: AuthUser, iat, exp :: p.parse(p.stringify(u, iat, exp)) ==
          Returned(Claims(Some(u.userId), Some(u.email), Some(u.githubLogin), Some(u.tier), Some(exp))))
  }

  function OrElse(value: Option<string>, fallback: string): string {
    if value.Some? then value.value else fallback
  }

  /** A missing or zero expiry never expires. */
  predicate Expired(exp: Option<int>, now: int) {
    exp.Some? && exp.value != 0 && exp.value < now
  }

  function SignedPart(header: string, payload: string): string {
    header + "." + payload
  }

  function CreateToken(p: Platform, user: AuthUser, secret: string, now: int): string {
    var header := Encoded(p.header);
    var payload := Encoded(p.stringify(user, now, now + THIRTY_DAYS));
    var signature := p.sign(secret, p.textEncode(SignedPart(header, payload)));
    header + "." + payload + "." + Encoded(signature)
  }

  /** None for every failure, thrown or not. */
  function VerifyToken(p: Platform, token: string, secret: string, now: int): Option<Verified> {
    var parts := Split(token, '.');
    if |parts| != 3 then None
    else
      match Decoded(parts[2])
      case None => None
      case Some(signature) =>
        if !p.verify(secret, signature, p.textEncode(SignedPart(parts[0], parts[1]))) then None
        else
          match Decoded(parts[1])
          case None => None
          case Some(bytes) =>
            match p.parse(bytes)
            case Threw(_) => None
            case Returned(claims) =>
              if Expired(claims.exp, now) then None
              else Some(Verified(claims.sub, OrElse(claims.email, ""), OrElse(claims.githubLogin, ""),
                                 OrElse(claims.tier, "free")))
  }

  lemma ThreeParts(a: string, b: string, c: string)
    requires '.' !in a && '.' !in b && '.' !in c
    ensures Split(a + "." + b + "." + c, '.') == [a, b, c]
  {
    SplitHead(a, b + "." + c, '.');
    SplitHead(b, c, '.');
    SplitWhole(c, '.');
    assert a + "." + b + "." + c == a + ['.'] + (b + "." + c) && b + "." + c == b + ['.'] + c;
  }

  /** A created token verifies under its secret exactly until it expires, and then returns its user. */
  lemma CreatedTokensVerify(p: Platform, user: AuthUser, secret: string, created: nat, now: int)
    requires Correct(p)
    ensures VerifyToken(p, CreateToken(p, user, secret, created), secret, now) ==
      if now <= created + 30 * 24 * 60 * 60
      then Some(Verified(Some(user.userId), user.email, user.githubLogin, user.tier))
      else None
  {
    var header := Encoded(p.header);
    var claims := p.stringify(user, created, created + THIRTY_DAYS);
    var payload := Encoded(claims);
    var signature := p.sign(secret, p.textEncode(SignedPart(header, payload)));
    ThreeParts(header, payload, Encoded(signature));
    RoundTrip(signature);
    RoundTrip(claims);
  }

  /** A token of three parts without dots, of which the last is a signature of the first two and the second
      holds claims that do not expire or have not expired yet; `v` tells these claims. */
  ghost predicate Vouches(p: Platform, token: string, secret: string, now: int, v: Verified, header: string,
    payload: string, signature: string)
  {
    && token == header + "." + payload + "." + signature
    && '.' !in header && '.' !in payload && '.' !in signature
    && Decoded(signature).Some? && Decoded(payload).Some?
    && p.verify(secret, Decoded(signature).value, p.textEncode(header + "." + payload))
    && p.parse(Decoded(payload).value).Returned?
    && var claims := p.parse(Decoded(payload).value).value;
    && (claims.exp == None || claims.exp == Some(0) || claims.exp.value >= now)
    && v.userId == claims.sub
    && Given(claims.email, "", v.email) && Given(claims.githubLogin, "", v.githubLogin)
    && Given(claims.tier, "free", v.tier)
  }

  /** The claim if it is there, the default if not. */
  predicate Given(claim: Option<string>, fallback: string, value: string) {
    (claim.Some? ==> value == claim.value) && (claim.None? ==> value == fallback)
  }

  lemma SplitsInThree(token: string, header: string, payload: string, signature: string)
    ensures Split(token, '.') == [header, payload, signature] <==>
      && token == header + "." + payload + "." + signature
      && '.' !in header && '.' !in payload && '.' !in signature
  {
    if Split(token, '.') == [header, payload, signature] {
      JoinSplit(token, '.');
      PiecesAreFree(token, '.', 0);
      PiecesAreFree(token, '.', 1);
      PiecesAreFree(token, '.', 2);
      JoinsThree(header, payload, signature);
    } else if '.' !in header && '.' !in payload && '.' !in signature {
      ThreeParts(header, payload, signature);
    }
  }

  lemma JoinsThree(a: string, b: string, c: string)
    ensures Join([a, b, c], ".") == a + "." + b + "." + c
  {
    assert [a, b, c][1..] == [b, c] && [b, c][1..] == [c];
    assert Join([b, c], ".") == b + "." + Join([c], ".") == b + "." + c;
    assert Join([a, b, c], ".") == a + "." + Join([b, c], ".");
    assert a + "." + (b + "." + c) == a + "." + b + "." + c;
  }

  lemma OfThreeParts(p: Platform, token: string, secret: string, now: int, v: Verified, header: string,
      payload: string, signature: string)
    requires Split(token, '.') == [header, payload, signature]
    ensures VerifyToken(p, token, secret, now) == Some(v) <==>
      Vouches(p, token, secret, now, v, header, payload, signature)
  {
    SplitsInThree(token, header, payload, signature);
    hide Split, Decoded;
  }

  /** Any token verifies, with this outcome, if and only if it is signed, readable, in time and says so. */
  lemma VerifiesExactlyTheVouched(p: Platform, token: string, secret: string, now: int, v: Verified)
    ensures VerifyToken(p, token, secret, now) == Some(v) <==>
      exists header, payload, signature :: Vouches(p, token, secret, now, v, header, payload, signature)
  {
    var parts := Split(token, '.');
    if VerifyToken(p, token, secret, now) == Some(v) {
      assert parts == [parts[0], parts[1], parts[2]];
      OfThreeParts(p, token, secret, now, v, parts[0], parts[1], parts[2]);
    }
    if header, payload, signature :| Vouches(p, token, secret, now, v, header, payload, signature) {
      SplitsInThree(token, header, payload, signature);
      OfThreeParts(p, token, secret, now, v, header, payload, signature);
    }
  }

  /** Whatever is changed in a token, its header, its payload, its signature or the secret it is checked with:
      if the signature does not verify for the result, the token is refused. */
  lemma ForgedTokensAreRefused(p: Platform, secret: string, now: int, header: string, payload: string,
      signature: string)
    requires '.' !in header && '.' !in payload && '.' !in signature
    requires Decoded(signature).Some? ==>
      !p.verify(secret, Decoded(signature).value, p.textEncode(header + "." + payload))
    ensures VerifyToken(p, header + "." + payload + "." + signature, secret, now) == None
  {
    var token := header + "." + payload + "." + signature;
    SplitsInThree(token, header, payload, signature);
    if VerifyToken(p, token, secret, now).Some? {
      OfThreeParts(p, token, secret, now, VerifyToken(p, token, secret, now).value, header, payload, signature);
    }
  }
}
