/** The in-memory refresh token store. */
module TokenStore {

  datatype Option<+T> = None | Some(value: T)

  /** Random 128-bit identifiers and SHA-256 digests, as numbers. */
  type Id = nat
  type Hash = nat

  type User = string

  /** Nanoseconds. */
  type Time = int

  /** How long the hashes of rotated tokens are kept. */
  const CONSUMED_RETENTION: Time := 14 * 24 * 3600 * 1_000_000_000

  datatype Token = Token(
    id: Id,
    userId: User,
    roles: seq<string>,
    hash: Hash,
    expiresAt: Time,
    createdAt: Time,
    revoked: bool)

  datatype Store = Store(tokens: map<Id, Token>, consumed: map<Hash, Time>)

  function Empty(): Store { Store(map[], map[]) }

  /** The operations that change the store. */
  datatype Op =
    | Create(token: Token)
    | Revoke(id: Id)
    | RevokeAll(user: User)
    | MarkConsumed(hash: Hash, now: Time)
    | DeleteExpired(now: Time)

  function Revoked(t: Token): Token { t.(revoked := true) }

  function RevokeToken(s: Store, id: Id): Store {
    if id in s.tokens then s.(tokens := s.tokens[id := Revoked(s.tokens[id])]) else s
  }

  function RevokeUser(s: Store, user: User): Store {
    s.(tokens := map id | id in s.tokens :: if s.tokens[id].userId == user then Revoked(s.tokens[id]) else s.tokens[id])
  }

  /** A token is swept strictly after its expiry, a consumed mark strictly after the retention. */
  function Sweep(s: Store, now: Time): Store {
    Store(map id | id in s.tokens && !(s.tokens[id].expiresAt < now) :: s.tokens[id],
          map h | h in s.consumed && !(now - s.consumed[h] > CONSUMED_RETENTION) :: s.consumed[h])
  }

  function Perform(s: Store, op: Op): Store {
    match op
    case Create(token) => s.(tokens := s.tokens[token.id := token])
    case Revoke(id) => RevokeToken(s, id)
    case RevokeAll(user) => RevokeUser(s, user)
    case MarkConsumed(hash, now) => s.(consumed := s.consumed[hash := now])
    case DeleteExpired(now) => Sweep(s, now)
  }

  predicate Matches(t: Token, hash: Hash, now: Time) {
    t.hash == hash && !t.revoked && t.expiresAt > now
  }

  /** The tokens FindByTokenHash may return; which one depends on the iteration order. */
  function Candidates(s: Store, hash: Hash, now: Time): set<Id> {
    set id | id in s.tokens && Matches(s.tokens[id], hash, now)
  }

  function GetById(s: Store, id: Id, now: Time): Option<Token> {
    if id !in s.tokens || s.tokens[id].revoked || s.tokens[id].expiresAt < now then None else Some(s.tokens[id])
  }

  /** The tokens with the given hash, revoked or not. */
  function Owners(s: Store, hash: Hash): set<Id> {
    set id | id in s.tokens && s.tokens[id].hash == hash
  }

  // ----- sweeping is invisible to lookups

  function PerformAll(s: Store, ops: seq<Op>): Store
    decreases |ops|
  {
    if ops == [] then s else PerformAll(Perform(s, ops[0]), ops[1..])
  }

  function WithoutSweeps(ops: seq<Op>): seq<Op>
    decreases |ops|
  {
    if ops == [] then []
    else if ops[0].DeleteExpired? then WithoutSweeps(ops[1..])
    else [ops[0]] + WithoutSweeps(ops[1..])
  }

  /** No sweep in the run is later than `now`. */
  predicate SweptBy(ops: seq<Op>, now: Time) {
    forall i :: 0 <= i < |ops| && ops[i].DeleteExpired? ==> ops[i].now <= now
  }

  /** `swept` is `full` without some tokens that had expired before `now`. */
  ghost predicate Thinner(swept: Store, full: Store, now: Time) {
    && (forall id :: id in swept.tokens ==> id in full.tokens && full.tokens[id] == swept.tokens[id])
    && (forall id :: id in full.tokens && id !in swept.tokens ==> full.tokens[id].expiresAt < now)
  }

  lemma StepThins(swept: Store, full: Store, op: Op, now: Time)
    requires Thinner(swept, full, now) && (op.DeleteExpired? ==> op.now <= now)
    ensures Thinner(Perform(swept, op), if op.DeleteExpired? then full else Perform(full, op), now)
  {
  }

  lemma {:induction false} RunThins(swept: Store, full: Store, ops: seq<Op>, now: Time)
    requires Thinner(swept, full, now) && SweptBy(ops, now)
    ensures Thinner(PerformAll(swept, ops), PerformAll(full, WithoutSweeps(ops)), now)
    decreases |ops|
  {
    if ops != [] {
      var op, rest := ops[0], ops[1..];
      StepThins(swept, full, op, now);
      if op.DeleteExpired? {
        RunThins(Perform(swept, op), full, rest, now);
      } else {
        RunThins(Perform(swept, op), Perform(full, op), rest, now);
        assert ([op] + WithoutSweeps(rest))[1..] == WithoutSweeps(rest);
      }
    }
  }

  /**
    Sweeps at times up to `now`, wherever they stand among the other operations, change
    neither what FindByTokenHash can find at `now` nor what GetByID returns.
  */
  lemma SweepsAreInvisible(s: Store, ops: seq<Op>, now: Time, hash: Hash, id: Id)
    requires SweptBy(ops, now)
    ensures Candidates(PerformAll(s, ops), hash, now) == Candidates(PerformAll(s, WithoutSweeps(ops)), hash, now)
    ensures GetById(PerformAll(s, ops), id, now) == GetById(PerformAll(s, WithoutSweeps(ops)), id, now)
  {
    RunThins(s, s, ops, now);
  }

  // ----- what the operations are for

  /** A token just created is found by its ID and by its hash until it expires. */
  lemma CreatedIsFound(s: Store, token: Token, now: Time)
    ensures var t := Perform(s, Create(token));
      && (GetById(t, token.id, now) == Some(token) <==> !token.revoked && now <= token.expiresAt)
      && (token.id in Candidates(t, token.hash, now) <==> !token.revoked && now < token.expiresAt)
  {
  }

  /** A sweep removes exactly the tokens past their expiry and the marks older than fourteen days. */
  lemma SweptExactly(s: Store, now: Time, id: Id, hash: Hash)
    ensures var t := Perform(s, DeleteExpired(now));
      && (id in t.tokens <==> id in s.tokens && now <= s.tokens[id].expiresAt)
      && (id in t.tokens ==> t.tokens[id] == s.tokens[id])
      && (hash in t.consumed <==> hash in s.consumed && now - s.consumed[hash] <= 1_209_600_000_000_000)
      && (hash in t.consumed ==> t.consumed[hash] == s.consumed[hash])
  {
  }

  /** Revoking a user's tokens revokes all of them and leaves everybody else's as they were. */
  lemma RevokeAllIsPersonal(s: Store, user: User, id: Id)
    ensures var t := Perform(s, RevokeAll(user));
      && t.consumed == s.consumed && (id in t.tokens <==> id in s.tokens)
      && (id in s.tokens ==>
            t.tokens[id] == if s.tokens[id].userId == user then s.tokens[id].(revoked := true) else s.tokens[id])
  {
  }

  predicate Recreates(ops: seq<Op>, id: Id) {
    exists i :: 0 <= i < |ops| && ops[i].Create? && ops[i].token.id == id
  }

  predicate Dead(s: Store, id: Id) {
    id in s.tokens ==> s.tokens[id].revoked
  }

  lemma {:induction false} DeadStaysDead(s: Store, ops: seq<Op>, id: Id)
    requires Dead(s, id) && !Recreates(ops, id)
    ensures Dead(PerformAll(s, ops), id)
    decreases |ops|
  {
    if ops != [] {
      assert forall i :: 0 <= i < |ops[1..]| ==> ops[1..][i] == ops[i + 1];
      DeadStaysDead(Perform(s, ops[0]), ops[1..], id);
    }
  }

  /** Revocation is final: whatever operations follow, no lookup ever returns the token again. */
  lemma RevokedIsNeverFound(s: Store, id: Id, ops: seq<Op>, hash: Hash, now: Time)
    requires !Recreates(ops, id)
    ensures var t := PerformAll(Perform(s, Revoke(id)), ops);
      GetById(t, id, now) == None && id !in Candidates(t, hash, now)
  {
    DeadStaysDead(Perform(s, Revoke(id)), ops, id);
  }

  /** No operation of the run marks `hash` again with an earlier time, and no sweep is later than the retention. */
  predicate KeepsMark(ops: seq<Op>, hash: Hash, at: Time) {
    forall i :: 0 <= i < |ops| ==>
      && (ops[i].MarkConsumed? && ops[i].hash == hash ==> at <= ops[i].now)
      && (ops[i].DeleteExpired? ==> ops[i].now - at <= CONSUMED_RETENTION)
  }

  lemma {:induction false} MarkStays(s: Store, ops: seq<Op>, hash: Hash, at: Time)
    requires hash in s.consumed && at <= s.consumed[hash] && KeepsMark(ops, hash, at)
    ensures hash in PerformAll(s, ops).consumed
    decreases |ops|
  {
    if ops != [] {
      assert forall i :: 0 <= i < |ops[1..]| ==> ops[1..][i] == ops[i + 1];
      MarkStays(Perform(s, ops[0]), ops[1..], hash, at);
    }
  }

  /** A consumed mark outlives every sweep within the retention; the first later one removes it. */
  lemma MarkOutlivesRetention(s: Store, ops: seq<Op>, hash: Hash, at: Time, now: Time)
    ensures KeepsMark(ops, hash, at) ==> hash in PerformAll(Perform(s, MarkConsumed(hash, at)), ops).consumed
    ensures hash in Perform(Perform(s, MarkConsumed(hash, at)), DeleteExpired(now)).consumed
      <==> now - at <= CONSUMED_RETENTION
  {
    if KeepsMark(ops, hash, at) {
      MarkStays(Perform(s, MarkConsumed(hash, at)), ops, hash, at);
    }
  }

  // ----- the store as an object

  class InMemoryRefreshTokenStore {
    var tokens: map<Id, Token>
    var consumed: map<Hash, Time>

    function View(): Store
      reads this
    {
      Store(tokens, consumed)
    }

    constructor ()
      ensures View() == Empty()
    {
      tokens, consumed := map[], map[];
    }

    method Create(token: Token)
      modifies this`tokens
      ensures View() == Perform(old(View()), Op.Create(token))
    {
      tokens := tokens[token.id := token];
    }

    /** Scans the tokens in an arbitrary order. */
    method FindByTokenHash(hash: Hash, now: Time) returns (found: Option<Token>)
      ensures found.None? <==> Candidates(View(), hash, now) == {}
      ensures found.Some? ==> exists id :: id in Candidates(View(), hash, now) && tokens[id] == found.value
    {
      var rest := tokens.Keys;
      while rest != {}
        invariant rest <= tokens.Keys
        invariant forall id :: id in tokens && id !in rest ==> !Matches(tokens[id], hash, now)
        decreases rest
      {
        var id :| id in rest;
        if Matches(tokens[id], hash, now) {
          assert id in Candidates(View(), hash, now);
          return Some(tokens[id]);
        }
        rest := rest - {id};
      }
      return None;
    }

    method GetByID(id: Id, now: Time) returns (found: Option<Token>)
      ensures found == GetById(View(), id, now)
    {
      if id !in tokens || tokens[id].revoked || tokens[id].expiresAt < now {
        return None;
      }
      return Some(tokens[id]);
    }

    method Revoke(id: Id)
      modifies this`tokens
      ensures View() == Perform(old(View()), Op.Revoke(id))
    {
      if id in tokens {
        tokens := tokens[id := tokens[id].(revoked := true)];
      }
    }

    method RevokeAllForUser(user: User)
      modifies this`tokens
      ensures View() == Perform(old(View()), RevokeAll(user))
    {
      var rest := tokens.Keys;
      while rest != {}
        invariant rest <= tokens.Keys == old(tokens).Keys
        invariant forall id :: id in tokens ==>
          var was := old(tokens)[id];
          tokens[id] == if id !in rest && was.userId == user then Revoked(was) else was
        decreases rest
      {
        var id :| id in rest;
        if tokens[id].userId == user {
          tokens := tokens[id := tokens[id].(revoked := true)];
        }
        rest := rest - {id};
      }
    }

    method MarkConsumed(hash: Hash, now: Time)
      modifies this`consumed
      ensures View() == Perform(old(View()), Op.MarkConsumed(hash, now))
    {
      consumed := consumed[hash := now];
    }

    /** Deletes while scanning, first the tokens and then the consumed marks. */
    method DeleteExpired(now: Time)
      modifies this
      ensures View() == Perform(old(View()), Op.DeleteExpired(now))
    {
      var rest := tokens.Keys;
      while rest != {}
        invariant rest <= tokens.Keys <= old(tokens).Keys && consumed == old(consumed)
        invariant forall id :: id in old(tokens) ==>
          (id in tokens <==> id in rest || !(old(tokens)[id].expiresAt < now))
        invariant forall id :: id in tokens ==> tokens[id] == old(tokens)[id]
        decreases rest
      {
        var id :| id in rest;
        if tokens[id].expiresAt < now {
          tokens := tokens - {id};
        }
        rest := rest - {id};
      }
      var marks := consumed.Keys;
      while marks != {}
        invariant marks <= consumed.Keys <= old(consumed).Keys && tokens == Sweep(old(View()), now).tokens
        invariant forall h :: h in old(consumed) ==>
          (h in consumed <==> h in marks || !(now - old(consumed)[h] > CONSUMED_RETENTION))
        invariant forall h :: h in consumed ==> consumed[h] == old(consumed)[h]
        decreases marks
      {
        var h :| h in marks;
        if now - consumed[h] > CONSUMED_RETENTION {
          consumed := consumed - {h};
        }
        marks := marks - {h};
      }
    }
  }
}
