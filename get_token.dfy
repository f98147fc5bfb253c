/** `get_token`: trades a verified, unused, fresh e-mail verification for an
    access token. The verification, user and token tables become maps and a
    list held by `AccountStore`; the clock and the random salt are inputs. */
module GetToken {
  import opened Wrappers
  import opened Hex
  import opened Token
  import opened RouterErrors

  /** A row of `email_verification`, with `created_at` in whole seconds. */
  datatype Verification = Verification(uuId: string, email: string, verified: bool, used: bool, createdAt: int)

  datatype User = User(id: int, email: string)

  /** A row of `token`: the hash of an issued token and its owner. */
  datatype TokenRow = TokenRow(tokenHash: string, userId: int)

  /** Why a request is refused: a `RouterError`, or the `Used` outcome that
      `get_token` returns although `RouterError` declares no such variant. */
  datatype Rejection = Router(error: RouterError) | Used(message: string)

  /** A verification is good for this many seconds after `created_at`. */
  const ExpiryWindow := 70

  const NoVerification := "Verification with this id not found"
  const NotVerified := "This verification is not verifyed"
  const AlreadyUsed := "This Verification code is already used"
  const VerificationExpired := "This Verification code is expired"

  /** The checks, in the order the router makes them; on success the
      verification and its user. */
  function Gate(verifications: map<string, Verification>, users: map<string, User>, id: string, now: int)
    : (r: Result<(Verification, User), Rejection>)
    ensures r.Ok? <==>
      && id in verifications
      && verifications[id].email in users
      && verifications[id].verified
      && !verifications[id].used
      && now - verifications[id].createdAt < ExpiryWindow
    ensures r.Ok? ==> r.value == (verifications[id], users[verifications[id].email])
  {
    if id !in verifications then Err(Router(NotFound(NoVerification)))
    else
      var v := verifications[id];
      if v.email !in users then Err(Router(InternalError))
      else if !v.verified then Err(Router(Auth(NotVerified)))
      else if v.used then Err(Used(AlreadyUsed))
      else if now - v.createdAt >= ExpiryWindow then Err(Router(Expired(VerificationExpired)))
      else Ok((v, users[v.email]))
  }

  /** A request passes exactly when the verification exists, its e-mail
      belongs to a user, it is verified and unused, and it is less than 70
      seconds old; it then yields that verification and that user. */
  lemma GateAccepts(verifications: map<string, Verification>, users: map<string, User>, id: string, now: int)
    ensures Gate(verifications, users, id, now).Ok? <==>
      && id in verifications
      && verifications[id].email in users
      && verifications[id].verified
      && !verifications[id].used
      && now - verifications[id].createdAt < ExpiryWindow
    ensures Gate(verifications, users, id, now).Ok? ==>
      Gate(verifications, users, id, now).value == (verifications[id], users[verifications[id].email])
  {
  }

  /** Each refusal, with the check that caused it; the user lookup comes
      before the verified flag, so a missing user is an internal error even
      for an unverified or used record. */
  lemma GateRefusals(verifications: map<string, Verification>, users: map<string, User>, id: string, now: int)
    ensures id !in verifications ==>
      Gate(verifications, users, id, now) == Err(Router(NotFound(NoVerification)))
    ensures id in verifications && verifications[id].email !in users ==>
      Gate(verifications, users, id, now) == Err(Router(InternalError))
    ensures id in verifications && verifications[id].email in users && !verifications[id].verified ==>
      Gate(verifications, users, id, now) == Err(Router(Auth(NotVerified)))
    ensures id in verifications && verifications[id].email in users && verifications[id].verified
            && verifications[id].used ==>
      Gate(verifications, users, id, now) == Err(Used(AlreadyUsed))
    ensures id in verifications && verifications[id].email in users && verifications[id].verified
            && !verifications[id].used && now - verifications[id].createdAt >= ExpiryWindow ==>
      Gate(verifications, users, id, now) == Err(Router(Expired(VerificationExpired)))
  {
  }

  /** Expiry only moves one way: a code accepted now was accepted at every
      earlier moment, and one refused as expired stays refused. */
  lemma GateExpiryMonotone(verifications: map<string, Verification>, users: map<string, User>,
                           id: string, earlier: int, later: int)
    requires earlier <= later
    ensures Gate(verifications, users, id, later).Ok? ==> Gate(verifications, users, id, earlier).Ok?
    ensures Gate(verifications, users, id, earlier) == Err(Router(Expired(VerificationExpired))) ==>
      Gate(verifications, users, id, later) == Err(Router(Expired(VerificationExpired)))
  {
  }

  /** One shot: once a request has passed and the record is marked used, the
      same id is refused with `Used` at any later time. */
  lemma GateOneShot(verifications: map<string, Verification>, users: map<string, User>,
                    id: string, now: int, later: int)
    requires Gate(verifications, users, id, now).Ok?
    ensures Gate(verifications[id := verifications[id].(used := true)], users, id, later) == Err(Used(AlreadyUsed))
  {
  }

  /** The user tables held in memory. */
  class AccountStore {
    var verifications: map<string, Verification>
    var users: map<string, User>
    var tokens: seq<TokenRow>

    /** Verifications are keyed by their `uu_id`, users by their e-mail, and
        only hashes of the 64-digit form ever reach the token table. */
    ghost predicate Valid()
      reads this
    {
      && (forall k :: k in verifications ==> verifications[k].uuId == k)
      && (forall e :: e in users ==> users[e].email == e)
      && (forall i :: 0 <= i < |tokens| ==> |tokens[i].tokenHash| == 64 && IsLowerHex(tokens[i].tokenHash))
    }

    constructor (verifications: map<string, Verification>, users: map<string, User>)
      requires forall k :: k in verifications ==> verifications[k].uuId == k
      requires forall e :: e in users ==> users[e].email == e
      ensures Valid()
      ensures this.verifications == verifications && this.users == users && tokens == []
    {
      this.verifications := verifications;
      this.users := users;
      tokens := [];
    }

    /** `get_token`. A refusal changes nothing. On success the verification
        is marked used, the returned token is the hex SHA-256 of the salt,
        and the row stored for the user holds the hex SHA-256 of the token's
        bytes, never the token itself. */
    method GetToken(sha256: seq<byte> -> seq<byte>, id: string, now: int, salt: seq<byte>)
      returns (r: Result<string, Rejection>)
      requires Valid() && IsSha256Shaped(sha256)
      requires |salt| == 32
      modifies this
      ensures Valid()
      ensures users == old(users)
      ensures Gate(old(verifications), old(users), id, now).Err? ==>
        && r == Err(Gate(old(verifications), old(users), id, now).error)
        && verifications == old(verifications)
        && tokens == old(tokens)
      ensures Gate(old(verifications), old(users), id, now).Ok? ==>
        && r == Ok(Digest(sha256, salt))
        && verifications == old(verifications)[id := old(verifications)[id].(used := true)]
        && tokens == old(tokens) + [TokenRow(Digest(sha256, AsciiBytes(r.value)), old(users)[old(verifications)[id].email].id)]
    {
      if id !in verifications {
        return Err(Router(NotFound(NoVerification)));
      }
      var verification := verifications[id];
      if verification.email !in users {
        return Err(Router(InternalError));
      }
      var user := users[verification.email];
      if !verification.verified {
        return Err(Router(Auth(NotVerified)));
      }
      if verification.used {
        return Err(Used(AlreadyUsed));
      }
      if now - verification.createdAt >= ExpiryWindow {
        return Err(Router(Expired(VerificationExpired)));
      }

      verifications := verifications[id := verification.(used := true)];

      var generator := new TokenGenerator(sha256, salt);
      generator.Generate();
      var result := generator.GetResult();
      if result.None? {
        return Err(Router(InternalError));
      }
      var token := result.value;

      generator.SetSource(AsciiBytes(token));
      generator.Generate();
      var tokenHash := generator.GetResult();

      tokens := tokens + [TokenRow(tokenHash.value, user.id)];
      r := Ok(token);
    }
  }

  /** Asking twice with the same id: the second answer is `Used`, and only
      one token row was written. */
  method AskTwice(store: AccountStore, sha256: seq<byte> -> seq<byte>, id: string,
                  now: int, later: int, salt1: seq<byte>, salt2: seq<byte>)
    returns (first: Result<string, Rejection>, second: Result<string, Rejection>)
    requires store.Valid() && IsSha256Shaped(sha256)
    requires |salt1| == 32 && |salt2| == 32
    modifies store
    ensures first.Ok? ==> second == Err(Used(AlreadyUsed)) && |store.tokens| == |old(store.tokens)| + 1
  {
    first := store.GetToken(sha256, id, now, salt1);
    if first.Ok? {
      GateOneShot(old(store.verifications), old(store.users), id, now, later);
    }
    second := store.GetToken(sha256, id, later, salt2);
  }
}
