/**
  What a logout, a refresh and a replay do to the store, stated on its maps, and that a
  token taken out of use by either never yields another.
*/
module SpentTokens {
  import opened TokenStore
  import opened RefreshTokens

  /** Among the records of a run, a hash names at most one token. */
  lemma OneRecordPerHash(s: State, a: Id, b: Id)
    requires RecordsKept(s) && a in s.store.tokens && b in s.store.tokens
    requires s.store.tokens[a].hash == s.store.tokens[b].hash
    ensures a == b && s.store.tokens[a].id == a
  {
    var j := IssueOf(s, a);
    var k := IssueOf(s, b);
  }

  /** Whatever FindByTokenHash returns is the one record with that hash. */
  lemma FoundIsUnique(s: State, hash: Hash, now: Time, id: Id)
    requires RecordsKept(s) && id in Candidates(s.store, hash, now)
    ensures Found(s.store, hash, now) == id && s.store.tokens[id].id == id
  {
    OneRecordPerHash(s, id, Found(s.store, hash, now));
  }

  /** Token `id` is stored, not revoked, and `now` is before its expiry. */
  predicate Live(s: Store, id: Id, now: Time) {
    id in s.tokens && !s.tokens[id].revoked && now < s.tokens[id].expiresAt
  }

  /** No live token has the hash. */
  predicate NoneLive(s: Store, hash: Hash, now: Time) {
    forall id :: id in s.tokens && s.tokens[id].hash == hash ==> !Live(s, id, now)
  }

  /** `t` is `s` with token `id` revoked and its hash marked at `now`. */
  predicate TakenOutOfUse(s: Store, t: Store, id: Id, now: Time)
    requires id in s.tokens
  {
    && t.tokens == s.tokens[id := s.tokens[id].(revoked := true)]
    && t.consumed == s.consumed[s.tokens[id].hash := now]
  }

  lemma LiveIsFound(s: State, id: Id, now: Time)
    requires RecordsKept(s) && Live(s.store, id, now)
    ensures id in Candidates(s.store, s.store.tokens[id].hash, now)
    ensures Found(s.store, s.store.tokens[id].hash, now) == id
  {
    assert id in Candidates(s.store, s.store.tokens[id].hash, now);
    FoundIsUnique(s, s.store.tokens[id].hash, now, id);
  }

  lemma LiveIsUnconsumed(s: State, id: Id, now: Time)
    requires Inv(s) && Live(s.store, id, now)
    ensures s.store.tokens[id].hash !in s.store.consumed && s.store.tokens[id].hash !in s.spent
  {
    var k := IssueOf(s, id);
    assert Usable(s, k);
  }

  lemma SignOutWithLive(s: State, hash: Hash, now: Time, id: Id)
    requires Inv(s) && s.clock <= now && Live(s.store, id, now) && s.store.tokens[id].hash == hash
    ensures TakenOutOfUse(s.store, Apply(s, SignOut(hash, now)).store, id, now)
  {
    LiveIsFound(s, id, now);
    hide Inv;
  }

  lemma SignOutWithout(s: State, hash: Hash, now: Time)
    requires s.clock <= now
    ensures Apply(s, SignOut(hash, now)).issued == s.issued
    ensures NoneLive(s.store, hash, now) ==> Apply(s, SignOut(hash, now)).store == s.store
  {
  }

  /**
    In every reachable state: logging out with a live token revokes it and marks its hash,
    with any other hash does nothing, and touches no other token and issues none.
  */
  lemma SignOutSpends(lifetime: Time, start: Time, events: seq<Event>, hash: Hash, now: Time)
    requires Legal(Init(lifetime, start), events) && Exec(Init(lifetime, start), events).clock <= now
    ensures var s := Exec(Init(lifetime, start), events); var t := Apply(s, SignOut(hash, now));
      && t.issued == s.issued
      && (NoneLive(s.store, hash, now) ==> t.store == s.store)
      && forall id :: Live(s.store, id, now) && s.store.tokens[id].hash == hash ==>
           TakenOutOfUse(s.store, t.store, id, now)
  {
    hide Inv, TakenOutOfUse, NoneLive, Legal, Exec;
    InitInv(lifetime, start);
    RunKeepsInv(Init(lifetime, start), events);
    var s := Exec(Init(lifetime, start), events);
    SignOutWithout(s, hash, now);
    hide Apply;
    forall id | Live(s.store, id, now) && s.store.tokens[id].hash == hash
      ensures TakenOutOfUse(s.store, Apply(s, SignOut(hash, now)).store, id, now)
    {
      SignOutWithLive(s, hash, now, id);
    }
  }

  /** The live token `id` is taken out of use and, if nothing fails, exactly one new token is issued for its user. */
  predicate Exchanges(s: State, t: State, id: Id, e: Event)
    requires e.Refresh? && id in s.store.tokens
  {
    var was := s.store.tokens[id];
    var used := s.store.tokens[id := was.(revoked := true)];
    var roles := if was.roles == [] then ["user"] else was.roles;
    var issued := Token(e.id, was.userId, roles, e.newHash, e.now + s.lifetime, e.now, false);
    && t.store.consumed == s.store.consumed[was.hash := e.now]
    && t.store.tokens == (if e.tokenFails then used else used[e.id := issued])
    && s.issued <= t.issued && |t.issued| == |s.issued| + (if e.tokenFails then 0 else 1)
  }

  /** Every token of `user` is revoked, and nothing else changes. */
  predicate RevokesOnly(s: Store, t: Store, user: User) {
    && t.consumed == s.consumed && t.tokens.Keys == s.tokens.Keys
    && forall id :: id in s.tokens ==>
         t.tokens[id] == if s.tokens[id].userId == user then s.tokens[id].(revoked := true) else s.tokens[id]
  }

  /**
    In every reachable state: a refresh with a live token exchanges it; with a consumed
    hash it issues nothing and revokes exactly the tokens of the hash's owner, if the
    record is still there; with any other hash it does nothing.
  */
  lemma RefreshExchanges(lifetime: Time, start: Time, events: seq<Event>, e: Event)
    requires Legal(Init(lifetime, start), events) && Enabled(Exec(Init(lifetime, start), events), e) && e.Refresh?
    ensures var s := Exec(Init(lifetime, start), events); var t := Apply(s, e);
      && (forall id :: Live(s.store, id, e.now) && s.store.tokens[id].hash == e.hash ==> Exchanges(s, t, id, e))
      && (NoneLive(s.store, e.hash, e.now) ==> t.issued == s.issued)
      && (NoneLive(s.store, e.hash, e.now) && e.hash !in s.store.consumed ==> t.store == s.store)
      && (e.hash in s.store.consumed ==>
            forall id :: id in s.store.tokens && s.store.tokens[id].hash == e.hash ==>
              RevokesOnly(s.store, t.store, s.store.tokens[id].userId))
  {
    hide Inv, Exchanges, RevokesOnly, NoneLive, Legal, Exec, Apply, Enabled, RecordsKept;
    InitInv(lifetime, start);
    RunKeepsInv(Init(lifetime, start), events);
    var s := Exec(Init(lifetime, start), events);
    RefreshWithout(s, e);
    forall id | Live(s.store, id, e.now) && s.store.tokens[id].hash == e.hash
      ensures Exchanges(s, Apply(s, e), id, e)
    {
      RefreshWithLive(s, e, id);
    }
    if e.hash in s.store.consumed {
      forall id | id in s.store.tokens && s.store.tokens[id].hash == e.hash
        ensures RevokesOnly(s.store, Apply(s, e).store, s.store.tokens[id].userId)
      {
        OwnerIsRevoked(s, e, id);
      }
    }
  }

  lemma RefreshRotates(s: State, e: Event, id: Id)
    requires Inv(s) && Enabled(s, e) && e.Refresh? && Live(s.store, id, e.now) && s.store.tokens[id].hash == e.hash
    ensures Apply(s, e) == Rotate(s, id, e)
  {
    LiveIsUnconsumed(s, id, e.now);
    LiveIsFound(s, id, e.now);
    hide Inv, Unused, Rotate;
  }

  lemma RotationExchanges(s: State, e: Event, id: Id)
    requires e.Refresh? && id in s.store.tokens && s.store.tokens[id].hash == e.hash
    ensures Exchanges(s, Rotate(s, id, e), id, e)
  {
    hide LoginOf;
  }

  lemma RefreshWithLive(s: State, e: Event, id: Id)
    requires Inv(s) && Enabled(s, e) && e.Refresh? && Live(s.store, id, e.now) && s.store.tokens[id].hash == e.hash
    ensures Exchanges(s, Apply(s, e), id, e)
  {
    hide Inv, Exchanges, Rotate, Enabled, Apply;
    RefreshRotates(s, e, id);
    RotationExchanges(s, e, id);
  }

  lemma RefreshWithout(s: State, e: Event)
    requires Enabled(s, e) && e.Refresh?
    ensures NoneLive(s.store, e.hash, e.now) ==> Apply(s, e).issued == s.issued
    ensures NoneLive(s.store, e.hash, e.now) && e.hash !in s.store.consumed ==> Apply(s, e).store == s.store
  {
  }

  lemma OnlyOwner(s: State, id: Id)
    requires RecordsKept(s) && id in s.store.tokens
    ensures Owners(s.store, s.store.tokens[id].hash) == {id}
  {
    forall other | other in Owners(s.store, s.store.tokens[id].hash) ensures other == id {
      OneRecordPerHash(s, id, other);
    }
    hide RecordsKept;
    assert id in Owners(s.store, s.store.tokens[id].hash);
  }

  lemma ReuseRevokes(s: Store, hash: Hash, id: Id)
    requires id in s.tokens && Owners(s, hash) == {id}
    ensures RevokesOnly(s, Reuse(s, hash), s.tokens[id].userId)
  {
    hide Owners;
  }

  lemma ReplayReuses(s: State, e: Event)
    requires Enabled(s, e) && e.Refresh? && e.hash in s.store.consumed
    ensures Apply(s, e).store == Reuse(s.store, e.hash)
  {
    hide Reuse, Unused;
  }

  lemma OwnerIsRevoked(s: State, e: Event, id: Id)
    requires Inv(s) && Enabled(s, e) && e.Refresh? && e.hash in s.store.consumed
    requires id in s.store.tokens && s.store.tokens[id].hash == e.hash
    ensures RevokesOnly(s.store, Apply(s, e).store, s.store.tokens[id].userId)
  {
    OnlyOwner(s, id);
    hide RecordsKept, MarksKept, FamiliesKept, Owners, RevokesOnly, Reuse, Apply, Enabled;
    ReplayReuses(s, e);
    ReuseRevokes(s.store, e.hash, id);
  }

  // ----- out of use for good

  lemma StepGrows(s: State, e: Event)
    requires Enabled(s, e)
    ensures s.issued <= Apply(s, e).issued && s.spent.Keys <= Apply(s, e).spent.Keys
  {
  }

  lemma {:induction false} RunGrows(s: State, events: seq<Event>)
    requires Legal(s, events)
    ensures s.issued <= Exec(s, events).issued && s.spent.Keys <= Exec(s, events).spent.Keys
    decreases |events|
  {
    hide Apply, Enabled;
    if events != [] {
      StepGrows(s, events[0]);
      RunGrows(Apply(s, events[0]), events[1..]);
    }
  }

  /** A spent hash belongs to no live token, so presenting it issues nothing. */
  lemma SpentIsRefused(s: State, e: Event)
    requires Inv(s) && Enabled(s, e) && e.Refresh? && e.hash in s.spent
    ensures Apply(s, e).issued == s.issued
  {
    if id :| id in Candidates(s.store, e.hash, e.now) {
      LiveIsUnconsumed(s, id, e.now);
    }
  }

  /**
    Over whole runs: once a live token has been presented to logout or refresh, no later
    refresh with its hash ever issues a token; and up to the token's expiry, with a
    lifetime within the retention, such a refresh locks its user out.
  */
  lemma SpentForGood(
      lifetime: Time, start: Time, before: seq<Event>, use: Event, id: Id, after: seq<Event>, e: Event)
    requires Legal(Init(lifetime, start), before) && Enabled(Exec(Init(lifetime, start), before), use)
    requires use.SignOut? || use.Refresh?
    requires Live(Exec(Init(lifetime, start), before).store, id, use.now)
    requires Exec(Init(lifetime, start), before).store.tokens[id].hash == use.hash
    requires Legal(Apply(Exec(Init(lifetime, start), before), use), after)
    requires Enabled(Exec(Apply(Exec(Init(lifetime, start), before), use), after), e)
    requires e.Refresh? && e.hash == use.hash
    ensures var token := Exec(Init(lifetime, start), before).store.tokens[id];
      var u := Exec(Apply(Exec(Init(lifetime, start), before), use), after);
      && Apply(u, e).issued == u.issued
      && (lifetime <= CONSUMED_RETENTION && e.now <= token.expiresAt ==> LockedOut(Apply(u, e), token.userId))
  {
    InitInv(lifetime, start);
    RunKeepsInv(Init(lifetime, start), before);
    var s := Exec(Init(lifetime, start), before);
    var k := IssueOf(s, id);
    UseSpends(s, use, id);
    StepKeepsInv(s, use);
    StepGrows(s, use);
    var t := Apply(s, use);
    assert t.lifetime == lifetime;
    hide Apply, Enabled, Inv, LockedOut;
    RunKeepsInv(t, after);
    RunGrows(t, after);
    var u := Exec(t, after);
    SpentIsRefused(u, e);
    assert u.issued[k] == s.issued[k];
    if lifetime <= CONSUMED_RETENTION && e.now <= s.store.tokens[id].expiresAt {
      ReplayIsDetected(u, e, k);
    }
  }

  lemma UseSpends(s: State, use: Event, id: Id)
    requires Inv(s) && Enabled(s, use) && (use.SignOut? || use.Refresh?)
    requires Live(s.store, id, use.now) && s.store.tokens[id].hash == use.hash
    ensures use.hash in Apply(s, use).spent && Apply(s, use).lifetime == s.lifetime
  {
    LiveIsUnconsumed(s, id, use.now);
    LiveIsFound(s, id, use.now);
  }
}
