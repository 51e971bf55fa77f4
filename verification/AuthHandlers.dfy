/** The gateway's auth handlers as sequences of store calls, each against its step of the token machine. */
module AuthHandlers {
  import opened TokenStore
  import opened RefreshTokens
  import opened SpentTokens

  datatype Response =
    | BadRequest
    | Unauthorized
    | InternalError
    | LoggedOut
    | Issued(token: Token)

  /** The lookup of reuse detection: revoked tokens count. */
  method FindByHashIncludingRevoked(store: InMemoryRefreshTokenStore, hash: Hash) returns (found: Option<Token>)
    ensures found.None? <==> Owners(store.View(), hash) == {}
    ensures found.Some? ==> exists id :: id in Owners(store.View(), hash) && store.tokens[id] == found.value
  {
    var rest := store.tokens.Keys;
    while rest != {}
      invariant rest <= store.tokens.Keys
      invariant forall id :: id in store.tokens && id !in rest ==> store.tokens[id].hash != hash
      decreases rest
    {
      var id :| id in rest;
      if store.tokens[id].hash == hash {
        assert id in Owners(store.View(), hash);
        return Some(store.tokens[id]);
      }
      rest := rest - {id};
    }
    return None;
  }

  /** Reuse detection: whoever owns the consumed hash loses every session. */
  method RevokeStolen(store: InMemoryRefreshTokenStore, hash: Hash, ghost s: State)
    requires store.View() == s.store && RecordsKept(s)
    modifies store
    ensures store.View() == Reuse(s.store, hash)
  {
    var stolen := FindByHashIncludingRevoked(store, hash);
    if stolen.Some? {
      ghost var owner :| owner in Owners(s.store, hash) && s.store.tokens[owner] == stolen.value;
      forall other | other in Owners(s.store, hash) ensures other == owner {
        OneRecordPerHash(s, owner, other);
      }
      hide RecordsKept;
      store.RevokeAllForUser(stolen.value.userId);
    }
  }

  /** The live token with the given hash, taken out of use. */
  method SpendToken(store: InMemoryRefreshTokenStore, hash: Hash, now: Time, ghost s: State)
    returns (found: Option<Token>)
    requires store.View() == s.store && RecordsKept(s)
    modifies store
    ensures found.None? <==> Candidates(s.store, hash, now) == {}
    ensures found.None? ==> store.View() == s.store
    ensures found.Some? ==>
      var id := Found(s.store, hash, now);
      found.value == s.store.tokens[id] && store.View() == Spend(s, id, hash, now).store
  {
    found := store.FindByTokenHash(hash, now);
    if found.Some? {
      ghost var id :| id in Candidates(s.store, hash, now) && s.store.tokens[id] == found.value;
      FoundIsUnique(s, hash, now, id);
      hide RecordsKept;
      store.Revoke(found.value.id);
      store.MarkConsumed(hash, now);
    }
  }

  /** `presented` is empty for a request without a token. */
  method RefreshHandler(
    store: InMemoryRefreshTokenStore, presented: Option<Hash>, now: Time, lifetime: Time,
    id: Id, newHash: Hash, tokenFails: bool, ghost s: State)
    returns (response: Response)
    requires store.View() == s.store && lifetime == s.lifetime && RecordsKept(s)
    requires presented.Some? ==> Enabled(s, Refresh(presented.value, now, id, newHash, tokenFails))
    modifies store
    ensures presented.None? ==> response.BadRequest? && store.View() == s.store
    ensures presented.Some? ==>
      var t := Apply(s, Refresh(presented.value, now, id, newHash, tokenFails));
      && store.View() == t.store
      && (response.Issued? <==> |t.issued| > |s.issued|)
      && (response.Issued? ==> response.token == t.issued[|s.issued|].token)
      && (response.Unauthorized? <==>
            presented.value in s.store.consumed || Candidates(s.store, presented.value, now) == {})
      && (response.InternalError? <==> !response.Unauthorized? && tokenFails)
    ensures response.Issued? ==>
      && presented.value !in old(store.consumed) && store.consumed == old(store.consumed)[presented.value := now]
      && exists old_ :: Live(old(store.View()), old_, now) && old(store.tokens)[old_].hash == presented.value
           && (var was := old(store.tokens)[old_];
               && response.token.userId == was.userId
               && response.token.roles == (if was.roles == [] then ["user"] else was.roles)
               && response.token.id == id && response.token.hash == newHash && !response.token.revoked
               && response.token.createdAt == now && response.token.expiresAt == now + lifetime
               && store.tokens == old(store.tokens)[old_ := was.(revoked := true)][id := response.token])
  {
    hide RecordsKept;
    if presented.None? {
      return BadRequest;
    }
    var hash := presented.value;
    if hash in store.consumed {
      RevokeStolen(store, hash, s);
      return Unauthorized;
    }
    var found := SpendToken(store, hash, now, s);
    if found.None? {
      return Unauthorized;
    }
    var token := found.value;
    if tokenFails {
      return InternalError;
    }
    var roles := if token.roles == [] then ["user"] else token.roles;
    var issued := Token(id, token.userId, roles, newHash, now + lifetime, now, false);
    store.Create(issued);
    return Issued(issued);
  }

  /** `validated` is the credential validator's verdict. */
  method LoginHandler(
    store: InMemoryRefreshTokenStore, validated: Option<(User, seq<string>)>, now: Time, lifetime: Time,
    id: Id, hash: Hash, tokenFails: bool, ghost s: State)
    returns (response: Response)
    requires store.View() == s.store && lifetime == s.lifetime
    requires validated.Some? ==> Enabled(s, SignIn(validated.value.0, validated.value.1, now, id, hash))
    modifies store
    ensures validated.None? ==> response.Unauthorized?
    ensures validated.Some? && tokenFails ==> response.InternalError?
    ensures validated.None? || tokenFails ==> store.View() == s.store
    ensures validated.Some? && !tokenFails ==>
      var t := Apply(s, SignIn(validated.value.0, validated.value.1, now, id, hash));
      store.View() == t.store && response == Issued(t.issued[|s.issued|].token)
    ensures response.Issued? ==>
      && response.token == Token(id, validated.value.0, validated.value.1, hash, now + lifetime, now, false)
      && store.tokens == old(store.tokens)[id := response.token] && store.consumed == old(store.consumed)
  {
    if validated.None? {
      return Unauthorized;
    }
    if tokenFails {
      return InternalError;
    }
    var issued := Token(id, validated.value.0, validated.value.1, hash, now + lifetime, now, false);
    store.Create(issued);
    return Issued(issued);
  }

  /** Logging out an unknown or expired token succeeds and changes nothing. */
  method LogoutHandler(store: InMemoryRefreshTokenStore, hash: Hash, now: Time, ghost s: State)
    returns (response: Response)
    requires store.View() == s.store && RecordsKept(s) && s.clock <= now
    modifies store
    ensures response.LoggedOut?
    ensures store.View() == Apply(s, SignOut(hash, now)).store
    ensures NoneLive(old(store.View()), hash, now) ==> store.View() == old(store.View())
    ensures forall id :: Live(old(store.View()), id, now) && old(store.tokens)[id].hash == hash ==>
      TakenOutOfUse(old(store.View()), store.View(), id, now)
  {
    forall id | Live(s.store, id, now) && s.store.tokens[id].hash == hash
      ensures id in Candidates(s.store, hash, now) && Found(s.store, hash, now) == id
    {
      LiveIsFound(s, id, now);
    }
    hide RecordsKept;
    var found := SpendToken(store, hash, now, s);
    return LoggedOut;
  }
}
