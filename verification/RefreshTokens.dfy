/**
  Login, refresh with rotation and reuse detection, logout and the periodic sweep.
  A request is one atomic step; token IDs and hashes are drawn fresh.
*/
module RefreshTokens {
  import opened TokenStore

  /** A token ever issued: `login` numbers the login it descends from, `first` tells the login's own token. */
  datatype Issue = Issue(token: Token, login: nat, first: bool)

  datatype Login = Login(userId: User, roles: seq<string>)

  /**
    `issued`, `logins`, `spent` and `exchanged` are history: `spent` maps the hashes of
    rotated and logged-out tokens to the time of that event, `exchanged` lists the
    hashes that were turned into a new token.
  */
  datatype State = State(
    store: Store,
    lifetime: Time,
    clock: Time,
    issued: seq<Issue>,
    logins: seq<Login>,
    spent: map<Hash, Time>,
    exchanged: seq<Hash>)

  /** `tokenFails`: signing the access token or drawing the new refresh token fails. */
  datatype Event =
    | SignIn(userId: User, roles: seq<string>, now: Time, id: Id, hash: Hash)
    | Refresh(hash: Hash, now: Time, id: Id, newHash: Hash, tokenFails: bool)
    | SignOut(hash: Hash, now: Time)
    | SweepAt(now: Time)

  function Init(lifetime: Time, start: Time): State {
    State(Empty(), lifetime, start, [], [], map[], [])
  }

  ghost predicate Unused(s: State, id: Id, hash: Hash) {
    forall k :: 0 <= k < |s.issued| ==> s.issued[k].token.id != id && s.issued[k].token.hash != hash
  }

  ghost predicate Enabled(s: State, e: Event) {
    && s.clock <= e.now
    && (e.SignIn? ==> Unused(s, e.id, e.hash))
    && (e.Refresh? ==> Unused(s, e.id, e.newHash))
  }

  /** Tokens without roles are refreshed as plain users. */
  function Defaulted(roles: seq<string>): seq<string> {
    if roles == [] then ["user"] else roles
  }

  /** The record generateRefreshToken stores. */
  function NewToken(s: State, userId: User, roles: seq<string>, now: Time, id: Id, hash: Hash): Token {
    Token(id, userId, roles, hash, now + s.lifetime, now, false)
  }

  /** The token is stored and remembered as issued. */
  function Issuing(s: State, token: Token, login: nat, first: bool): State {
    s.(store := Perform(s.store, Create(token)), issued := s.issued + [Issue(token, login, first)])
  }

  ghost function Apply(s: State, e: Event): State
    requires Enabled(s, e)
  {
    match e
    case SignIn(userId, roles, now, id, hash) =>
      var token := NewToken(s, userId, roles, now, id, hash);
      Issuing(s.(clock := now, logins := s.logins + [Login(userId, roles)]), token, |s.logins|, true)
    case Refresh(hash, now, id, newHash, tokenFails) =>
      if hash in s.store.consumed then s.(clock := now, store := Reuse(s.store, hash))
      else if Candidates(s.store, hash, now) == {} then s.(clock := now)
      else Rotate(s, Found(s.store, hash, now), e)
    case SignOut(hash, now) =>
      if Candidates(s.store, hash, now) == {} then s.(clock := now)
      else Spend(s, Found(s.store, hash, now), hash, now)
    case SweepAt(now) => s.(clock := now, store := Perform(s.store, DeleteExpired(now)))
  }

  /** Some token FindByTokenHash may return. */
  ghost function Found(store: Store, hash: Hash, now: Time): (id: Id)
    requires Candidates(store, hash, now) != {}
    ensures id in Candidates(store, hash, now)
  {
    var id :| id in Candidates(store, hash, now); id
  }

  /** A consumed hash was presented: revoke the sessions of whoever owns it, if the record is still there. */
  ghost function Reuse(store: Store, hash: Hash): Store {
    if Owners(store, hash) == {} then store
    else
      var id :| id in Owners(store, hash);
      Perform(store, RevokeAll(store.tokens[id].userId))
  }

  /** Revoke and MarkConsumed. */
  function Spend(s: State, id: Id, hash: Hash, now: Time): State {
    s.(clock := now,
       store := Perform(Perform(s.store, Revoke(id)), MarkConsumed(hash, now)),
       spent := s.spent[hash := now])
  }

  ghost function LoginOf(s: State, id: Id): nat {
    if k :| 0 <= k < |s.issued| && s.issued[k].token.id == id then s.issued[k].login else 0
  }

  ghost function Rotate(s: State, old_: Id, e: Event): State
    requires e.Refresh? && old_ in s.store.tokens
  {
    var t := Spend(s, old_, e.hash, e.now);
    if e.tokenFails then t
    else
      var replaced := s.store.tokens[old_];
      var token := NewToken(s, replaced.userId, Defaulted(replaced.roles), e.now, e.id, e.newHash);
      Issuing(t.(exchanged := s.exchanged + [e.hash]), token, LoginOf(s, old_), false)
  }

  ghost predicate Legal(s: State, events: seq<Event>)
    decreases |events|
  {
    events == [] || (Enabled(s, events[0]) && Legal(Apply(s, events[0]), events[1..]))
  }

  ghost function Exec(s: State, events: seq<Event>): State
    requires Legal(s, events)
    decreases |events|
  {
    if events == [] then s else Exec(Apply(s, events[0]), events[1..])
  }

  // ----- invariant

  /** The stored record is the issued one, possibly revoked since. */
  predicate Stored(s: State, k: nat)
    requires k < |s.issued|
  {
    var t := s.issued[k].token;
    t.id in s.store.tokens && s.store.tokens[t.id].(revoked := false) == t
  }

  /** Present and not revoked. */
  predicate Usable(s: State, k: nat)
    requires k < |s.issued|
  {
    var id := s.issued[k].token.id;
    id in s.store.tokens && !s.store.tokens[id].revoked
  }

  ghost predicate RecordsKept(s: State) {
    && (forall k :: 0 <= k < |s.issued| ==>
          && !s.issued[k].token.revoked
          && s.issued[k].token.createdAt <= s.clock
          && s.issued[k].token.expiresAt == s.issued[k].token.createdAt + s.lifetime
          && (s.issued[k].token.id in s.store.tokens ==> Stored(s, k))
          && (s.clock <= s.issued[k].token.expiresAt ==> Stored(s, k)))
    && (forall j, k :: 0 <= j < k < |s.issued| ==>
          s.issued[j].token.id != s.issued[k].token.id && s.issued[j].token.hash != s.issued[k].token.hash)
    && (forall id :: id in s.store.tokens ==> exists k :: 0 <= k < |s.issued| && s.issued[k].token.id == id)
  }

  /** Consumed marks outlive the retention; spent tokens stay unusable. */
  ghost predicate MarksKept(s: State) {
    && (forall h :: h in s.spent ==>
          && s.spent[h] <= s.clock
          && (s.clock - s.spent[h] <= CONSUMED_RETENTION ==> h in s.store.consumed))
    && (forall h :: h in s.store.consumed ==> h in s.spent && s.store.consumed[h] == s.spent[h])
    && (forall h :: h in s.spent ==> exists k :: 0 <= k < |s.issued| && s.issued[k].token.hash == h)
    && (forall k :: 0 <= k < |s.issued| && s.issued[k].token.hash in s.spent ==>
          !Usable(s, k) && s.issued[k].token.createdAt <= s.spent[s.issued[k].token.hash])
    && (forall i :: 0 <= i < |s.exchanged| ==> s.exchanged[i] in s.spent)
    && (forall i, j :: 0 <= i < j < |s.exchanged| ==> s.exchanged[i] != s.exchanged[j])
  }

  /** Within one login's chain only the latest token can be usable, and roles are carried over. */
  ghost predicate FamiliesKept(s: State) {
    && (forall k :: 0 <= k < |s.issued| ==>
          var i := s.issued[k];
          && i.login < |s.logins| && i.token.userId == s.logins[i.login].userId
          && i.token.roles == if i.first then s.logins[i.login].roles else Defaulted(s.logins[i.login].roles))
    && (forall j, k :: 0 <= j < k < |s.issued| && s.issued[j].login == s.issued[k].login ==> !Usable(s, j))
  }

  ghost predicate Inv(s: State) {
    RecordsKept(s) && MarksKept(s) && FamiliesKept(s)
  }

  /** Time passes and the store only loses: tokens are revoked or swept, marks are swept. */
  ghost predicate Fades(s: State, t: State) {
    && s.clock <= t.clock && t == s.(clock := t.clock, store := t.store)
    && t.store.tokens.Keys <= s.store.tokens.Keys
    && (forall k :: 0 <= k < |s.issued| && Stored(s, k) ==>
          (s.issued[k].token.id in t.store.tokens || t.clock <= s.issued[k].token.expiresAt) ==> Stored(t, k))
    && (forall k :: 0 <= k < |s.issued| && Usable(t, k) ==> Usable(s, k))
    && (forall h :: h in t.store.consumed ==> h in s.store.consumed && t.store.consumed[h] == s.store.consumed[h])
    && (forall h :: h in s.store.consumed && t.clock - s.store.consumed[h] <= CONSUMED_RETENTION ==>
          h in t.store.consumed)
  }

  lemma FadingKeepsRecords(s: State, t: State)
    requires RecordsKept(s) && Fades(s, t)
    ensures RecordsKept(t)
  {
    hide Stored, Usable;
  }

  lemma FadingKeepsMarks(s: State, t: State)
    requires MarksKept(s) && Fades(s, t)
    ensures MarksKept(t)
  {
    hide Stored, Usable;
  }

  lemma FadingKeepsInv(s: State, t: State)
    requires Inv(s) && Fades(s, t)
    ensures Inv(t)
  {
    hide RecordsKept, MarksKept, FamiliesKept, Stored, Usable;
    FadingKeepsRecords(s, t);
    FadingKeepsMarks(s, t);
    FewerUsable(s, t);
  }

  lemma TickKeepsInv(s: State, now: Time)
    requires Inv(s) && s.clock <= now
    ensures Inv(s.(clock := now))
  {
    var t := s.(clock := now);
    assert forall k :: 0 <= k < |s.issued| ==> Stored(t, k) == Stored(s, k) && Usable(t, k) == Usable(s, k);
    hide Inv, Stored, Usable;
    FadingKeepsInv(s, t);
  }

  lemma RevokeUserKeepsInv(s: State, user: User)
    requires Inv(s)
    ensures Inv(s.(store := Perform(s.store, RevokeAll(user))))
  {
    var t := s.(store := Perform(s.store, RevokeAll(user)));
    hide Inv;
    FadingKeepsInv(s, t);
  }

  lemma SweepKeepsInv(s: State, now: Time)
    requires Inv(s) && s.clock <= now
    ensures Inv(s.(clock := now, store := Perform(s.store, DeleteExpired(now))))
  {
    var t := s.(clock := now, store := Perform(s.store, DeleteExpired(now)));
    hide Inv;
    FadingKeepsInv(s, t);
  }

  /** The issue a stored token came from. */
  lemma IssueOf(s: State, id: Id) returns (k: nat)
    requires RecordsKept(s) && id in s.store.tokens
    ensures k < |s.issued| && s.issued[k].token.id == id && Stored(s, k)
    ensures s.store.tokens[id].hash == s.issued[k].token.hash && s.store.tokens[id].userId == s.issued[k].token.userId
    ensures s.store.tokens[id].roles == s.issued[k].token.roles
    ensures s.store.tokens[id].expiresAt == s.issued[k].token.expiresAt
    ensures LoginOf(s, id) == s.issued[k].login
  {
    k :| 0 <= k < |s.issued| && s.issued[k].token.id == id;
  }

  lemma SpendKeepsRecords(s: State, id: Id, hash: Hash, now: Time)
    requires RecordsKept(s) && s.clock <= now && id in Candidates(s.store, hash, now)
    ensures RecordsKept(Spend(s, id, hash, now))
    ensures forall k :: 0 <= k < |s.issued| ==>
      (Usable(Spend(s, id, hash, now), k) <==> Usable(s, k) && s.issued[k].token.hash != hash)
  {
    var t := Spend(s, id, hash, now);
    var owner := IssueOf(s, id);
    forall k | 0 <= k < |s.issued|
      ensures Stored(s, k) ==> Stored(t, k)
      ensures Usable(t, k) <==> Usable(s, k) && s.issued[k].token.hash != hash
    {
      if k != owner {
        assert s.issued[k].token.id != id && s.issued[k].token.hash != hash;
      }
    }
  }

  lemma SpendKeepsMarks(s: State, id: Id, hash: Hash, now: Time, owner: nat)
    requires MarksKept(s) && s.clock <= now && owner < |s.issued| && s.issued[owner].token.hash == hash
    requires Usable(s, owner) && s.issued[owner].token.createdAt <= s.clock
    requires forall j, k :: 0 <= j < k < |s.issued| ==> s.issued[j].token.hash != s.issued[k].token.hash
    requires forall k :: 0 <= k < |s.issued| ==>
      (Usable(Spend(s, id, hash, now), k) <==> Usable(s, k) && s.issued[k].token.hash != hash)
    ensures MarksKept(Spend(s, id, hash, now)) && hash !in s.spent
  {
    hide Usable;
    var t := Spend(s, id, hash, now);
    assert t.store.consumed == s.store.consumed[hash := now] && t.spent == s.spent[hash := now];
    assert t.issued == s.issued && t.exchanged == s.exchanged && t.clock == now;
    hide Spend, Perform;
    assert hash !in s.spent;
    forall h | h in t.spent ensures exists k :: 0 <= k < |s.issued| && s.issued[k].token.hash == h {
      if h == hash {
        assert s.issued[owner].token.hash == h;
      } else {
        assert h in s.spent;
      }
    }
  }

  lemma FewerUsable(s: State, t: State)
    requires FamiliesKept(s) && t.issued == s.issued && t.logins == s.logins
    requires forall k :: 0 <= k < |s.issued| && Usable(t, k) ==> Usable(s, k)
    ensures FamiliesKept(t)
  {
    hide Usable;
  }

  lemma SpendKeepsInv(s: State, id: Id, hash: Hash, now: Time)
    requires Inv(s) && s.clock <= now && id in Candidates(s.store, hash, now)
    ensures Inv(Spend(s, id, hash, now))
    ensures hash !in s.spent
  {
    hide MarksKept, FamiliesKept;
    var owner := IssueOf(s, id);
    assert Usable(s, owner);
    SpendKeepsRecords(s, id, hash, now);
    hide Usable, Stored;
    SpendKeepsMarks(s, id, hash, now, owner);
    FewerUsable(s, Spend(s, id, hash, now));
  }

  lemma IssueKeepsOthers(s: State, token: Token, login: nat, first: bool)
    requires Unused(s, token.id, token.hash)
    ensures var t := Issuing(s, token, login, first);
      && (forall k :: 0 <= k < |s.issued| ==>
            t.issued[k] == s.issued[k] && Stored(t, k) == Stored(s, k) && Usable(t, k) == Usable(s, k))
      && (!token.revoked ==> Stored(t, |s.issued|))
  {
  }

  lemma IssueKeepsRecords(s: State, token: Token, login: nat, first: bool)
    requires RecordsKept(s) && Unused(s, token.id, token.hash) && !token.revoked
    requires token.createdAt == s.clock && token.expiresAt == s.clock + s.lifetime
    ensures RecordsKept(Issuing(s, token, login, first))
  {
    var t := Issuing(s, token, login, first);
    IssueKeepsOthers(s, token, login, first);
    hide Stored;
    forall id | id in t.store.tokens ensures exists k :: 0 <= k < |t.issued| && t.issued[k].token.id == id {
      if id == token.id {
        assert t.issued[|s.issued|].token.id == id;
      } else {
        var k :| 0 <= k < |s.issued| && s.issued[k].token.id == id;
        assert t.issued[k].token.id == id;
      }
    }
    forall k | 0 <= k < |s.issued| ensures t.issued[k].token.id in t.store.tokens ==> Stored(t, k) {
      assert t.issued[k].token.id in s.store.tokens <==> t.issued[k].token.id in t.store.tokens;
    }
  }

  lemma IssueKeepsMarks(s: State, token: Token, login: nat, first: bool)
    requires MarksKept(s) && Unused(s, token.id, token.hash)
    ensures MarksKept(Issuing(s, token, login, first))
  {
    var t := Issuing(s, token, login, first);
    IssueKeepsOthers(s, token, login, first);
    hide Usable;
    forall h | h in t.spent ensures h != token.hash && exists k :: 0 <= k < |t.issued| && t.issued[k].token.hash == h {
      var k :| 0 <= k < |s.issued| && s.issued[k].token.hash == h;
      assert t.issued[k].token.hash == h;
    }
  }

  lemma IssueKeepsFamilies(s: State, token: Token, login: nat, first: bool)
    requires FamiliesKept(s) && Unused(s, token.id, token.hash)
    requires login < |s.logins| && token.userId == s.logins[login].userId
    requires token.roles == if first then s.logins[login].roles else Defaulted(s.logins[login].roles)
    requires forall k :: 0 <= k < |s.issued| && s.issued[k].login == login ==> !Usable(s, k)
    ensures FamiliesKept(Issuing(s, token, login, first))
  {
    IssueKeepsOthers(s, token, login, first);
    hide Usable;
  }

  /** A fresh token joins the records as the only usable one of its chain. */
  lemma IssueKeepsInv(s: State, token: Token, login: nat, first: bool)
    requires Inv(s) && Unused(s, token.id, token.hash) && !token.revoked
    requires token.createdAt == s.clock && token.expiresAt == s.clock + s.lifetime
    requires login < |s.logins| && token.userId == s.logins[login].userId
    requires token.roles == if first then s.logins[login].roles else Defaulted(s.logins[login].roles)
    requires forall k :: 0 <= k < |s.issued| && s.issued[k].login == login ==> !Usable(s, k)
    ensures Inv(Issuing(s, token, login, first))
  {
    hide RecordsKept, MarksKept, FamiliesKept, Unused, Usable;
    IssueKeepsRecords(s, token, login, first);
    IssueKeepsMarks(s, token, login, first);
    IssueKeepsFamilies(s, token, login, first);
  }

  lemma HistoryKeepsMarks(s: State, t: State)
    requires MarksKept(s) && t == s.(logins := t.logins, exchanged := t.exchanged)
    requires forall i :: 0 <= i < |t.exchanged| ==> t.exchanged[i] in s.spent
    requires forall i, j :: 0 <= i < j < |t.exchanged| ==> t.exchanged[i] != t.exchanged[j]
    ensures MarksKept(t)
  {
    assert forall k :: 0 <= k < |s.issued| ==> Usable(t, k) == Usable(s, k);
    hide Usable;
  }

  lemma HistoryKeepsFamilies(s: State, t: State)
    requires FamiliesKept(s) && t == s.(logins := t.logins, exchanged := t.exchanged) && s.logins <= t.logins
    ensures FamiliesKept(t)
  {
    assert forall k :: 0 <= k < |s.issued| ==> Usable(t, k) == Usable(s, k);
    hide Usable;
  }

  lemma HistoryKeepsInv(s: State, t: State)
    requires Inv(s) && t == s.(logins := t.logins, exchanged := t.exchanged)
    requires s.logins <= t.logins
    requires forall i :: 0 <= i < |t.exchanged| ==> t.exchanged[i] in s.spent
    requires forall i, j :: 0 <= i < j < |t.exchanged| ==> t.exchanged[i] != t.exchanged[j]
    ensures Inv(t)
  {
    hide MarksKept, FamiliesKept;
    HistoryKeepsMarks(s, t);
    HistoryKeepsFamilies(s, t);
    assert forall k :: 0 <= k < |s.issued| ==> Stored(t, k) == Stored(s, k);
    hide Stored;
  }

  lemma SignInKeepsInv(s: State, e: Event)
    requires Inv(s) && Enabled(s, e) && e.SignIn?
    ensures Inv(Apply(s, e))
  {
    var t := s.(clock := e.now);
    var u := t.(logins := s.logins + [Login(e.userId, e.roles)]);
    TickKeepsInv(s, e.now);
    HistoryKeepsInv(t, u);
    assert forall k :: 0 <= k < |u.issued| ==> u.issued[k].login < |s.logins|;
    hide Inv;
    IssueKeepsInv(u, NewToken(s, e.userId, e.roles, e.now, e.id, e.hash), |s.logins|, true);
  }

  /** Once the usable token of a chain is spent, the chain has none. */
  lemma ChainIsSpent(s: State, t: State, owner: nat)
    requires FamiliesKept(s) && owner < |s.issued| && Usable(s, owner) && t.issued == s.issued
    requires forall k :: 0 <= k < |s.issued| ==>
      (Usable(t, k) <==> Usable(s, k) && s.issued[k].token.hash != s.issued[owner].token.hash)
    ensures forall k :: 0 <= k < |s.issued| && s.issued[k].login == s.issued[owner].login ==> !Usable(t, k)
  {
    hide Usable;
  }

  lemma SpentChain(s: State, id: Id, hash: Hash, now: Time) returns (owner: nat)
    requires Inv(s) && s.clock <= now && id in Candidates(s.store, hash, now)
    ensures owner < |s.issued| && LoginOf(s, id) == s.issued[owner].login < |s.logins|
    ensures s.store.tokens[id].userId == s.logins[s.issued[owner].login].userId
    ensures Defaulted(s.store.tokens[id].roles) == Defaulted(s.logins[s.issued[owner].login].roles)
    ensures forall k :: 0 <= k < |s.issued| && s.issued[k].login == s.issued[owner].login ==>
      !Usable(Spend(s, id, hash, now), k)
  {
    hide MarksKept;
    owner := IssueOf(s, id);
    assert Usable(s, owner);
    SpendKeepsRecords(s, id, hash, now);
    hide RecordsKept;
    ChainIsSpent(s, Spend(s, id, hash, now), owner);
  }

  lemma ExchangedOnce(s: State)
    requires Inv(s)
    ensures forall i :: 0 <= i < |s.exchanged| ==> s.exchanged[i] in s.spent
    ensures forall i, j :: 0 <= i < j < |s.exchanged| ==> s.exchanged[i] != s.exchanged[j]
  {
  }

  /** The exchange is recorded once. */
  lemma ExchangeKeepsInv(s: State, id: Id, hash: Hash, now: Time)
    requires Inv(s) && s.clock <= now && id in Candidates(s.store, hash, now)
    ensures var t := Spend(s, id, hash, now);
      Inv(t) && Inv(t.(exchanged := s.exchanged + [hash]))
  {
    hide Inv, Candidates;
    var t := Spend(s, id, hash, now);
    ExchangedOnce(s);
    SpendKeepsInv(s, id, hash, now);
    HistoryKeepsInv(t, t.(exchanged := s.exchanged + [hash]));
  }

  lemma RotateKeepsInv(s: State, old_: Id, e: Event)
    requires Inv(s) && Enabled(s, e) && e.Refresh? && old_ in Candidates(s.store, e.hash, e.now)
    ensures Inv(Rotate(s, old_, e))
  {
    hide Inv;
    ExchangeKeepsInv(s, old_, e.hash, e.now);
    if !e.tokenFails {
      var t := Spend(s, old_, e.hash, e.now);
      var u := t.(exchanged := s.exchanged + [e.hash]);
      var owner := SpentChain(s, old_, e.hash, e.now);
      forall k | 0 <= k < |u.issued| && u.issued[k].login == s.issued[owner].login ensures !Usable(u, k) {
        assert !Usable(t, k);
      }
      var replaced := s.store.tokens[old_];
      IssueKeepsInv(u, NewToken(s, replaced.userId, Defaulted(replaced.roles), e.now, e.id, e.newHash),
        s.issued[owner].login, false);
    }
  }

  lemma StepKeepsInv(s: State, e: Event)
    requires Inv(s) && Enabled(s, e)
    ensures Inv(Apply(s, e))
  {
    hide Inv, Unused;
    TickKeepsInv(s, e.now);
    match e
    case SignIn(_, _, _, _, _) => SignInKeepsInv(s, e);
    case Refresh(hash, now, _, _, _) =>
      if hash in s.store.consumed {
        if id :| id in Owners(s.store, hash) {
          forall user ensures Inv(s.(clock := now, store := Perform(s.store, RevokeAll(user)))) {
            RevokeUserKeepsInv(s.(clock := now), user);
          }
        }
      } else if Candidates(s.store, hash, now) != {} {
        RotateKeepsInv(s, Found(s.store, hash, now), e);
      }
    case SignOut(hash, now) =>
      if Candidates(s.store, hash, now) != {} {
        SpendKeepsInv(s, Found(s.store, hash, now), hash, now);
      }
    case SweepAt(now) => SweepKeepsInv(s, now);
  }

  lemma {:induction false} RunKeepsInv(s: State, events: seq<Event>)
    requires Legal(s, events) && Inv(s)
    ensures Inv(Exec(s, events)) && s.clock <= Exec(s, events).clock && Exec(s, events).lifetime == s.lifetime
    decreases |events|
  {
    hide Inv;
    if events != [] {
      StepKeepsInv(s, events[0]);
      RunKeepsInv(Apply(s, events[0]), events[1..]);
    }
  }

  lemma InitInv(lifetime: Time, start: Time)
    ensures Inv(Init(lifetime, start))
  {
  }

  // ----- reuse detection

  /** Every stored token of the user is revoked. */
  ghost predicate LockedOut(s: State, user: User) {
    forall id :: id in s.store.tokens && s.store.tokens[id].userId == user ==> s.store.tokens[id].revoked
  }

  /** A spent token is presented at or before its own expiry. */
  ghost predicate Replays(s: State, e: Event, k: nat) {
    && Enabled(s, e) && e.Refresh? && k < |s.issued|
    && e.hash == s.issued[k].token.hash && e.hash in s.spent && e.now <= s.issued[k].token.expiresAt
  }

  /** The mark and the record of a replayed token are both still there. */
  lemma ReplayIsRecognised(s: State, e: Event, k: nat)
    requires RecordsKept(s) && MarksKept(s) && Replays(s, e, k) && s.lifetime <= CONSUMED_RETENTION
    ensures e.hash in s.store.consumed && Stored(s, k)
  {
    hide Usable;
    var token := s.issued[k].token;
    assert Stored(s, k) && token.expiresAt - token.createdAt == s.lifetime;
    hide RecordsKept, Stored;
    assert s.clock - s.spent[e.hash] <= token.expiresAt - token.createdAt;
  }

  lemma OwnerIsUnique(s: State, k: nat)
    requires RecordsKept(s) && k < |s.issued| && Stored(s, k)
    ensures Owners(s.store, s.issued[k].token.hash) == {s.issued[k].token.id}
  {
    var token := s.issued[k].token;
    forall id | id in Owners(s.store, token.hash) ensures id == token.id {
      var j := IssueOf(s, id);
    }
    assert token.id in Owners(s.store, token.hash);
  }

  lemma ReplayIsDetected(s: State, e: Event, k: nat)
    requires Inv(s) && Replays(s, e, k) && s.lifetime <= CONSUMED_RETENTION
    ensures LockedOut(Apply(s, e), s.issued[k].token.userId)
  {
    hide RecordsKept, MarksKept, FamiliesKept;
    ReplayIsRecognised(s, e, k);
    OwnerIsUnique(s, k);
    assert s.issued[k].token.id in Owners(s.store, e.hash);
  }

  /**
    With a lifetime within the retention, a rotated or logged-out token presented
    before its expiry, whatever sweeps ran in between, is recognised and revokes every
    token of its user.
  */
  lemma ReplayRevokesUser(lifetime: Time, start: Time, events: seq<Event>, e: Event, k: nat)
    requires lifetime <= CONSUMED_RETENTION && Legal(Init(lifetime, start), events)
    requires Replays(Exec(Init(lifetime, start), events), e, k)
    ensures var s := Exec(Init(lifetime, start), events);
      LockedOut(Apply(s, e), s.issued[k].token.userId)
  {
    InitInv(lifetime, start);
    RunKeepsInv(Init(lifetime, start), events);
    ReplayIsDetected(Exec(Init(lifetime, start), events), e, k);
  }

  ghost predicate WithoutSignIn(events: seq<Event>, user: User) {
    forall i :: 0 <= i < |events| && events[i].SignIn? ==> events[i].userId != user
  }

  lemma StepKeepsLockedOut(s: State, e: Event, user: User)
    requires Enabled(s, e) && LockedOut(s, user) && (e.SignIn? ==> e.userId != user)
    ensures var t := Apply(s, e);
      && LockedOut(t, user) && s.issued <= t.issued
      && forall k :: |s.issued| <= k < |t.issued| ==> t.issued[k].token.userId != user
  {
  }

  /** A locked-out user gets no further token until the next login. */
  lemma {:induction false} LockedOutLasts(s: State, events: seq<Event>, user: User)
    requires Legal(s, events) && LockedOut(s, user) && WithoutSignIn(events, user)
    ensures var t := Exec(s, events);
      && LockedOut(t, user) && s.issued <= t.issued
      && forall k :: |s.issued| <= k < |t.issued| ==> t.issued[k].token.userId != user
    decreases |events|
  {
    hide LockedOut, Apply, Enabled;
    if events != [] {
      var t := Apply(s, events[0]);
      StepKeepsLockedOut(s, events[0], user);
      assert forall i :: 0 <= i < |events[1..]| ==> events[1..][i] == events[i + 1];
      LockedOutLasts(t, events[1..], user);
    }
  }

  /**
    Replay detection over whole runs: after the replay of a spent token, whatever
    requests and sweeps follow, its user holds no usable token and is issued none until
    the next login.
  */
  lemma ReplayEndsAllSessions(
      lifetime: Time, start: Time, before: seq<Event>, e: Event, k: nat, after: seq<Event>, user: User)
    requires lifetime <= CONSUMED_RETENTION && Legal(Init(lifetime, start), before)
    requires Replays(Exec(Init(lifetime, start), before), e, k)
    requires user == Exec(Init(lifetime, start), before).issued[k].token.userId
    requires Legal(Apply(Exec(Init(lifetime, start), before), e), after) && WithoutSignIn(after, user)
    ensures var s := Apply(Exec(Init(lifetime, start), before), e); var t := Exec(s, after);
      && LockedOut(t, user) && s.issued <= t.issued
      && forall i :: |s.issued| <= i < |t.issued| ==> t.issued[i].token.userId != user
  {
    hide Apply, LockedOut;
    ReplayRevokesUser(lifetime, start, before, e, k);
    LockedOutLasts(Apply(Exec(Init(lifetime, start), before), e), after, user);
  }

  /** Every replay before expiry, in every run, revokes all sessions of the user. */
  ghost predicate DetectsReuse(lifetime: Time) {
    forall start, events, e, k: nat ::
      Legal(Init(lifetime, start), events) && Replays(Exec(Init(lifetime, start), events), e, k) ==>
        var s := Exec(Init(lifetime, start), events);
        LockedOut(Apply(s, e), s.issued[k].token.userId)
  }

  lemma ExecStep(s: State, e: Event, rest: seq<Event>)
    requires Enabled(s, e) && Legal(Apply(s, e), rest)
    ensures Legal(s, [e] + rest) && Exec(s, [e] + rest) == Exec(Apply(s, e), rest)
  {
    assert ([e] + rest)[1..] == rest;
  }

  lemma EmptyRun(s: State)
    ensures Legal(s, []) && Exec(s, []) == s
  {
  }

  lemma {:induction false} ExecJoin(s: State, a: seq<Event>, b: seq<Event>)
    requires Legal(s, a) && Legal(Exec(s, a), b)
    ensures Legal(s, a + b) && Exec(s, a + b) == Exec(Exec(s, a), b)
    decreases |a|
  {
    hide Apply, Enabled;
    if a == [] {
      assert a + b == b;
    } else {
      ExecJoin(Apply(s, a[0]), a[1..], b);
      assert (a + b)[0] == a[0] && (a + b)[1..] == a[1..] + b;
    }
  }

  /** Login, one rotation, and a sweep just after the retention. */
  function Forgetful(): seq<Event> {
    [SignIn("user", [], 0, 1, 1), Refresh(1, 0, 2, 2, false), SweepAt(CONSUMED_RETENTION + 1)]
  }

  /** After login and rotation: the first token is spent, the second usable. */
  lemma AfterRotation(lifetime: Time) returns (s: State)
    requires CONSUMED_RETENTION < lifetime
    ensures var events := [SignIn("user", [], 0, 1, 1), Refresh(1, 0, 2, 2, false)];
      Legal(Init(lifetime, 0), events) && s == Exec(Init(lifetime, 0), events)
    ensures s.clock == 0 && s.lifetime == lifetime && s.store.consumed == map[1 := 0] && 1 in s.spent
    ensures var first := Token(1, "user", [], 1, lifetime, 0, false);
      var second := Token(2, "user", ["user"], 2, lifetime, 0, false);
      && s.store.tokens == map[1 := Revoked(first), 2 := second]
      && |s.issued| == 2 && s.issued[0].token == first && s.issued[1].token == second
  {
    hide Legal, Exec;
    var e1, e2 := SignIn("user", [], 0, 1, 1), Refresh(1, 0, 2, 2, false);
    var s1 := Apply(Init(lifetime, 0), e1);
    assert s1.store.tokens == map[1 := Token(1, "user", [], 1, lifetime, 0, false)];
    assert 1 in Candidates(s1.store, 1, 0);
    s := Apply(s1, e2);
    EmptyRun(s);
    ExecStep(s1, e2, []);
    assert [e2] + [] == [e2];
    ExecStep(Init(lifetime, 0), e1, [e2]);
    assert [e1] + [e2] == [e1, e2];
  }

  lemma ForgetfulRun(lifetime: Time) returns (s: State)
    requires CONSUMED_RETENTION < lifetime
    ensures Legal(Init(lifetime, 0), Forgetful()) && s == Exec(Init(lifetime, 0), Forgetful())
    ensures s.clock == CONSUMED_RETENTION + 1 && s.store.consumed == map[] && 1 in s.spent
    ensures |s.issued| == 2 && s.issued[0].token.hash == 1 && s.issued[0].token.expiresAt == lifetime
    ensures s.issued[0].token.userId == "user" && s.issued[1].token.hash == 2
    ensures s.issued[0].token.id == 1 && s.issued[1].token.id == 2
    ensures 1 in s.store.tokens && s.store.tokens[1].revoked
    ensures 2 in s.store.tokens && s.store.tokens[2].userId == "user" && !s.store.tokens[2].revoked
    ensures s.store.tokens.Keys == {1, 2}
  {
    hide Legal, Exec;
    var before := AfterRotation(lifetime);
    var sweep := SweepAt(CONSUMED_RETENTION + 1);
    s := Apply(before, sweep);
    assert s.store.consumed == map[];
    EmptyRun(s);
    ExecStep(before, sweep, []);
    assert [sweep] + [] == [sweep];
    var events := [SignIn("user", [], 0, 1, 1), Refresh(1, 0, 2, 2, false)];
    ExecJoin(Init(lifetime, 0), events, [sweep]);
    assert events + [sweep] == Forgetful();
  }

  /** Reuse detection works in all runs exactly if tokens live no longer than marks are kept: fourteen days. */
  lemma ReuseDetectionNeedsRetention(lifetime: Time)
    ensures DetectsReuse(lifetime) <==> lifetime <= CONSUMED_RETENTION
    ensures DetectsReuse(lifetime) <==> lifetime <= 1_209_600_000_000_000
  {
    if lifetime <= CONSUMED_RETENTION {
      forall start, events, e, k: nat |
        Legal(Init(lifetime, start), events) && Replays(Exec(Init(lifetime, start), events), e, k)
        ensures var s := Exec(Init(lifetime, start), events);
          LockedOut(Apply(s, e), s.issued[k].token.userId)
      {
        ReplayRevokesUser(lifetime, start, events, e, k);
      }
    } else {
      var s := ForgetfulRun(lifetime);
      var e := Refresh(1, CONSUMED_RETENTION + 1, 3, 3, false);
      ReplayGoesUnnoticed(s, e);
      assert Replays(s, e, 0);
    }
  }

  /** Once the mark is swept, presenting the revoked token does nothing at all. */
  lemma ReplayGoesUnnoticed(s: State, e: Event)
    requires Enabled(s, e) && e.Refresh? && e.hash !in s.store.consumed
    requires forall id :: id in s.store.tokens && s.store.tokens[id].hash == e.hash ==> s.store.tokens[id].revoked
    ensures Apply(s, e).store == s.store
  {
  }

  // ----- token families

  /**
    In every run: of each login's chain at most the latest token is usable, every token
    of the chain belongs to the login's user and carries its roles, and no token is
    exchanged twice, even after its consumed mark is gone.
  */
  lemma TokenFamilies(lifetime: Time, start: Time, events: seq<Event>)
    requires Legal(Init(lifetime, start), events)
    ensures var s := Exec(Init(lifetime, start), events);
      && (forall j, k :: 0 <= j < k < |s.issued| && s.issued[j].login == s.issued[k].login ==> !Usable(s, j))
      && (forall k :: 0 <= k < |s.issued| ==>
            && s.issued[k].login < |s.logins|
            && s.issued[k].token.userId == s.logins[s.issued[k].login].userId
            && (s.issued[k].token.roles == s.logins[s.issued[k].login].roles
                || (s.logins[s.issued[k].login].roles == [] && s.issued[k].token.roles == ["user"])))
      && (forall i, j :: 0 <= i < j < |s.exchanged| ==> s.exchanged[i] != s.exchanged[j])
  {
    InitInv(lifetime, start);
    RunKeepsInv(Init(lifetime, start), events);
  }
}
