// Sessions, refresh-token families and rotation, each use case one transaction.
module RefreshTokens {
  import opened Wrappers

  type Id = nat         // a UUID, only ever compared
  type TokenHash = nat  // SHA-256 of a raw refresh token, only ever compared
  type Time = int

  datatype Reason = RefreshReuseDetected | RefreshExpired | UserLogout

  datatype Session = Session(userId: Id, revokedAt: Option<Time>, reason: Option<Reason>, lastUsedAt: Time, amr: seq<string>)

  datatype Token = Token(sessionId: Id, hash: TokenHash, expiresAt: Time, usedAt: Option<Time>,
                         revokedAt: Option<Time>, replacedBy: Option<Id>)

  // The tables: sessions and tokens by primary key, the unique index on the token hash, and the
  // tenant of each user that has a membership.
  datatype Tables = Tables(sessions: map<Id, Session>, tokens: map<Id, Token>, byHash: map<TokenHash, Id>, tenants: map<Id, Id>)

  const EMPTY := Tables(map[], map[], map[], map[])

  datatype AccessToken = AccessToken(userId: Id, tenantId: Id, sessionId: Id, amr: seq<string>)

  datatype Result =
    | Granted(access: AccessToken, refresh: TokenHash)
    | AuthenticationError
    | IntegrityError      // a unique constraint failed and the transaction rolled back
    | Completed

  datatype Op =
    | Issue(user: Id, amr: seq<string>, sessionId: Id, tokenId: Id, hash: TokenHash, now: Time)
    | Refresh(presented: TokenHash, tokenId: Id, hash: TokenHash, now: Time)
    | Logout(presented: TokenHash, now: Time)
    | Join(user: Id, tenant: Id)
    | Leave(user: Id)

  function Revoke(s: Session, now: Time, reason: Reason): Session {
    s.(revokedAt := Some(now), reason := Some(reason))
  }

  // _issue_credentials; a login without membership fails and commits nothing.
  function IssueStep(ttl: nat, t: Tables, op: Op): (Tables, Result)
    requires op.Issue?
  {
    if op.user !in t.tenants then (t, AuthenticationError)
    else if op.sessionId in t.sessions || op.tokenId in t.tokens || op.hash in t.byHash then (t, IntegrityError)
    else
      (t.(sessions := t.sessions[op.sessionId := Session(op.user, None, None, op.now, op.amr)],
          tokens := t.tokens[op.tokenId := Token(op.sessionId, op.hash, op.now + ttl, None, None, None)],
          byHash := t.byHash[op.hash := op.tokenId]),
       Granted(AccessToken(op.user, t.tenants[op.user], op.sessionId, op.amr), op.hash))
  }

  // IdentityService.refresh under RefreshTokens.execute, which commits on AuthenticationError too.
  function RefreshStep(ttl: nat, t: Tables, op: Op): (Tables, Result)
    requires op.Refresh?
  {
    if op.presented !in t.byHash || t.byHash[op.presented] !in t.tokens then (t, AuthenticationError)
    else
      var id := t.byHash[op.presented];
      var stored := t.tokens[id];
      if stored.sessionId !in t.sessions || t.sessions[stored.sessionId].revokedAt.Some? then (t, AuthenticationError)
      else
        var session := t.sessions[stored.sessionId];
        if stored.usedAt.Some? || stored.revokedAt.Some? then
          (t.(sessions := t.sessions[stored.sessionId := Revoke(session, op.now, RefreshReuseDetected)]), AuthenticationError)
        else if stored.expiresAt <= op.now then
          (t.(sessions := t.sessions[stored.sessionId := Revoke(session, op.now, RefreshExpired)]), AuthenticationError)
        else if op.tokenId in t.tokens || op.hash in t.byHash then (t, IntegrityError)
        else
          var issued := Token(stored.sessionId, op.hash, op.now + ttl, None, None, None);
          var t' := t.(tokens := t.tokens[op.tokenId := issued][id := stored.(usedAt := Some(op.now), replacedBy := Some(op.tokenId))],
                       byHash := t.byHash[op.hash := op.tokenId],
                       sessions := t.sessions[stored.sessionId := session.(lastUsedAt := op.now)]);
          if session.userId !in t.tenants then (t', AuthenticationError)
          else (t', Granted(AccessToken(session.userId, t.tenants[session.userId], stored.sessionId, session.amr), op.hash))
  }

  function LogoutStep(t: Tables, op: Op): (Tables, Result)
    requires op.Logout?
  {
    if op.presented !in t.byHash || t.byHash[op.presented] !in t.tokens then (t, Completed)
    else
      var sid := t.tokens[t.byHash[op.presented]].sessionId;
      if sid in t.sessions && t.sessions[sid].revokedAt.None? then
        (t.(sessions := t.sessions[sid := Revoke(t.sessions[sid], op.now, UserLogout)]), Completed)
      else (t, Completed)
  }

  function Apply(ttl: nat, t: Tables, op: Op): (Tables, Result) {
    match op
    case Issue(_, _, _, _, _, _) => IssueStep(ttl, t, op)
    case Refresh(_, _, _, _) => RefreshStep(ttl, t, op)
    case Logout(_, _) => LogoutStep(t, op)
    case Join(user, tenant) => if user in t.tenants then (t, IntegrityError) else (t.(tenants := t.tenants[user := tenant]), Completed)
    case Leave(user) => (t.(tenants := t.tenants - {user}), Completed)
  }

  // --- The use cases as the code runs them: repository calls in order, then commit or roll back ---

  class IdentityStore {
    var sessions: map<Id, Session>
    var tokens: map<Id, Token>
    var byHash: map<TokenHash, Id>
    var tenants: map<Id, Id>
    const ttl: nat

    constructor (refreshTtl: nat)
      ensures ttl == refreshTtl && Committed() == EMPTY
    {
      sessions, tokens, byHash, tenants := map[], map[], map[], map[];
      ttl := refreshTtl;
    }

    ghost function Committed(): Tables
      reads this
    {
      Tables(sessions, tokens, byHash, tenants)
    }

    // sessions.add; false on a primary key conflict
    method AddSession(id: Id, user: Id, amr: seq<string>, now: Time) returns (ok: bool)
      modifies this`sessions
      ensures ok <==> id !in old(sessions)
      ensures sessions == if ok then old(sessions)[id := Session(user, None, None, now, amr)] else old(sessions)
    {
      ok := id !in sessions;
      if ok { sessions := sessions[id := Session(user, None, None, now, amr)]; }
    }

    // refresh_tokens.add; false when the id or the token hash exists
    method AddToken(id: Id, sessionId: Id, hash: TokenHash, expiresAt: Time) returns (ok: bool)
      modifies this`tokens, this`byHash
      ensures ok <==> id !in old(tokens) && hash !in old(byHash)
      ensures tokens == if ok then old(tokens)[id := Token(sessionId, hash, expiresAt, None, None, None)] else old(tokens)
      ensures byHash == if ok then old(byHash)[hash := id] else old(byHash)
    {
      ok := id !in tokens && hash !in byHash;
      if ok {
        tokens := tokens[id := Token(sessionId, hash, expiresAt, None, None, None)];
        byHash := byHash[hash := id];
      }
    }

    method RevokeSession(id: Id, now: Time, reason: Reason)
      modifies this`sessions
      ensures sessions == if id in old(sessions) then old(sessions)[id := Revoke(old(sessions)[id], now, reason)] else old(sessions)
    {
      if id in sessions { sessions := sessions[id := Revoke(sessions[id], now, reason)]; }
    }

    method MarkUsed(id: Id, now: Time, replacedBy: Id)
      modifies this`tokens
      ensures tokens == if id in old(tokens) then old(tokens)[id := old(tokens)[id].(usedAt := Some(now), replacedBy := Some(replacedBy))]
                        else old(tokens)
    {
      if id in tokens { tokens := tokens[id := tokens[id].(usedAt := Some(now), replacedBy := Some(replacedBy))]; }
    }

    method Touch(id: Id, now: Time)
      modifies this`sessions
      ensures sessions == if id in old(sessions) then old(sessions)[id := old(sessions)[id].(lastUsedAt := now)] else old(sessions)
    {
      if id in sessions { sessions := sessions[id := sessions[id].(lastUsedAt := now)]; }
    }

    // login and complete_login after the credentials were accepted
    method IssueCredentials(user: Id, amr: seq<string>, sessionId: Id, tokenId: Id, hash: TokenHash, now: Time) returns (r: Result)
      modifies this
      ensures (Committed(), r) == IssueStep(ttl, old(Committed()), Issue(user, amr, sessionId, tokenId, hash, now))
    {
      if user !in tenants { return AuthenticationError; }
      var savedSessions, savedTokens, savedIndex := sessions, tokens, byHash;
      var ok := AddSession(sessionId, user, amr, now);
      if ok { ok := AddToken(tokenId, sessionId, hash, now + ttl); }
      if !ok {
        sessions, tokens, byHash := savedSessions, savedTokens, savedIndex;
        return IntegrityError;
      }
      return Granted(AccessToken(user, tenants[user], sessionId, amr), hash);
    }

    method ExecuteRefresh(presented: TokenHash, tokenId: Id, hash: TokenHash, now: Time) returns (r: Result)
      modifies this
      ensures (Committed(), r) == RefreshStep(ttl, old(Committed()), Refresh(presented, tokenId, hash, now))
    {
      if presented !in byHash || byHash[presented] !in tokens { return AuthenticationError; }
      var id := byHash[presented];
      var stored := tokens[id];
      if stored.sessionId !in sessions { return AuthenticationError; }
      var session := sessions[stored.sessionId];
      if session.revokedAt.Some? { return AuthenticationError; }
      if stored.usedAt.Some? || stored.revokedAt.Some? {
        RevokeSession(stored.sessionId, now, RefreshReuseDetected);
        return AuthenticationError;
      }
      if stored.expiresAt <= now {
        RevokeSession(stored.sessionId, now, RefreshExpired);
        return AuthenticationError;
      }
      var ok := AddToken(tokenId, stored.sessionId, hash, now + ttl);
      if !ok { return IntegrityError; }
      MarkUsed(id, now, tokenId);
      Touch(stored.sessionId, now);
      if session.userId !in tenants { return AuthenticationError; }
      return Granted(AccessToken(session.userId, tenants[session.userId], stored.sessionId, session.amr), hash);
    }

    method ExecuteLogout(presented: TokenHash, now: Time)
      modifies this
      ensures Committed() == LogoutStep(old(Committed()), Logout(presented, now)).0
    {
      if presented !in byHash || byHash[presented] !in tokens { return; }
      var sid := tokens[byHash[presented]].sessionId;
      if sid in sessions && sessions[sid].revokedAt.None? {
        RevokeSession(sid, now, UserLogout);
      }
    }
  }

  // --- The chain of a session's tokens ---

  ghost predicate Indexed(t: Tables) {
    && (forall h :: h in t.byHash ==> t.byHash[h] in t.tokens && t.tokens[t.byHash[h]].hash == h)
    && (forall id :: id in t.tokens ==>
          t.tokens[id].hash in t.byHash && t.byHash[t.tokens[id].hash] == id && t.tokens[id].sessionId in t.sessions)
  }

  // `chain` lists the session's tokens in rotation order, each linked to the next.
  ghost predicate IsChain(tokens: map<Id, Token>, sid: Id, chain: seq<Id>) {
    && chain != []
    && (forall i, j :: 0 <= i < j < |chain| ==> chain[i] != chain[j])
    && (forall id :: id in chain <==> id in tokens && tokens[id].sessionId == sid)
    && (forall i :: 0 <= i < |chain| - 1 ==> tokens[chain[i]].usedAt.Some? && tokens[chain[i]].replacedBy == Some(chain[i + 1]))
    && tokens[chain[|chain| - 1]].usedAt.None? && tokens[chain[|chain| - 1]].replacedBy.None?
  }

  ghost predicate HasChain(tokens: map<Id, Token>, sid: Id) { exists chain :: IsChain(tokens, sid, chain) }

  ghost predicate Inv(t: Tables) {
    && Indexed(t)
    && forall sid :: sid in t.sessions ==> HasChain(t.tokens, sid)
  }

  // Tokens of other sessions do not matter to a chain.
  lemma ChainFrame(a: map<Id, Token>, b: map<Id, Token>, sid: Id)
    requires HasChain(a, sid)
    requires forall id :: id in a && a[id].sessionId == sid ==> id in b && b[id] == a[id]
    requires forall id :: id in b && b[id].sessionId == sid ==> id in a && a[id].sessionId == sid
    ensures HasChain(b, sid)
  {
    var chain :| IsChain(a, sid, chain);
    forall i | 0 <= i < |chain| ensures chain[i] in a && chain[i] in b && b[chain[i]] == a[chain[i]] {
      assert chain[i] in chain;
    }
    assert IsChain(b, sid, chain);
  }

  lemma NewChain(tokens: map<Id, Token>, sid: Id, id: Id, x: Token)
    requires x.sessionId == sid && x.usedAt.None? && x.replacedBy.None?
    requires forall k :: k in tokens ==> tokens[k].sessionId != sid
    ensures HasChain(tokens[id := x], sid)
  {
    assert IsChain(tokens[id := x], sid, [id]);
  }

  // Rotating the unused token extends the chain by the new one.
  lemma ExtendChain(tokens: map<Id, Token>, sid: Id, id: Id, next: Id, x: Token, now: Time)
    requires HasChain(tokens, sid) && id in tokens && next !in tokens
    requires tokens[id].sessionId == sid == x.sessionId && tokens[id].usedAt.None? && x.usedAt.None? && x.replacedBy.None?
    ensures HasChain(tokens[next := x][id := tokens[id].(usedAt := Some(now), replacedBy := Some(next))], sid)
  {
    var chain :| IsChain(tokens, sid, chain);
    var n := |chain| - 1;
    assert id in chain;
    var k :| 0 <= k < |chain| && chain[k] == id;
    assert k == n;
    var tokens' := tokens[next := x][id := tokens[id].(usedAt := Some(now), replacedBy := Some(next))];
    var chain' := chain + [next];
    forall i | 0 <= i < |chain| ensures chain[i] in tokens && chain[i] != next && tokens[chain[i]].sessionId == sid {
      assert chain[i] in chain;
    }
    forall i | 0 <= i < |chain'| - 1
      ensures tokens'[chain'[i]].usedAt.Some? && tokens'[chain'[i]].replacedBy == Some(chain'[i + 1])
    {
      assert chain'[i] == chain[i];
      if i < n { assert chain[i] != id && chain'[i + 1] == chain[i + 1]; }
    }
    assert IsChain(tokens', sid, chain');
  }

  // The two ways a refresh changes the tables: it writes a revocation, or it links a new token behind
  // the presented one; on a live session when no other transaction comes in between.
  ghost predicate Marks(t: Tables, t': Tables, sid: Id) {
    && sid in t.sessions
    && exists now, why :: t' == t.(sessions := t.sessions[sid := Revoke(t.sessions[sid], now, why)])
  }

  ghost predicate Links(t: Tables, t': Tables, id: Id, next: Id, x: Token, now: Time) {
    && id in t.tokens && next !in t.tokens && x.hash !in t.byHash
    && t.tokens[id].usedAt.None? && x.sessionId == t.tokens[id].sessionId && x.usedAt.None? && x.replacedBy.None?
    && x.sessionId in t.sessions
    && t'.tokens == t.tokens[next := x][id := t.tokens[id].(usedAt := Some(now), replacedBy := Some(next))]
    && t'.byHash == t.byHash[x.hash := next]
    && t'.sessions == t.sessions[x.sessionId := t.sessions[x.sessionId].(lastUsedAt := now)]
  }

  ghost predicate Revokes(t: Tables, t': Tables, sid: Id) { Marks(t, t', sid) && t.sessions[sid].revokedAt.None? }

  ghost predicate Rotates(t: Tables, t': Tables, id: Id, next: Id, x: Token, now: Time) {
    Links(t, t', id, next, x, now) && t.sessions[x.sessionId].revokedAt.None?
  }

  lemma RefreshEffect(ttl: nat, t: Tables, op: Op)
    requires op.Refresh?
    ensures var (t', r) := RefreshStep(ttl, t, op);
            || t' == t
            || (op.presented in t.byHash && t.byHash[op.presented] in t.tokens
                && (|| Revokes(t, t', t.tokens[t.byHash[op.presented]].sessionId)
                    || Rotates(t, t', t.byHash[op.presented], op.tokenId,
                               Token(t.tokens[t.byHash[op.presented]].sessionId, op.hash, op.now + ttl, None, None, None), op.now)))
  {
  }

  lemma LinkKeepsInv(t: Tables, t': Tables, id: Id, next: Id, x: Token, now: Time)
    requires Inv(t) && Links(t, t', id, next, x, now)
    ensures Inv(t')
  {
    hide HasChain;
    ExtendChain(t.tokens, x.sessionId, id, next, x, now);
    forall sid | sid in t'.sessions && sid != x.sessionId ensures HasChain(t'.tokens, sid) { ChainFrame(t.tokens, t'.tokens, sid); }
  }

  lemma MarkKeepsInv(t: Tables, t': Tables, sid: Id)
    requires Inv(t) && Marks(t, t', sid)
    ensures Inv(t')
  {
    hide HasChain;
  }

  lemma IssueKeepsInv(ttl: nat, t: Tables, op: Op)
    requires Inv(t) && op.Issue?
    ensures Inv(IssueStep(ttl, t, op).0)
  {
    hide HasChain;
    var t' := IssueStep(ttl, t, op).0;
    if t'.tokens != t.tokens {
      NewChain(t.tokens, op.sessionId, op.tokenId, t'.tokens[op.tokenId]);
      forall sid | sid in t.sessions ensures HasChain(t'.tokens, sid) { ChainFrame(t.tokens, t'.tokens, sid); }
    }
  }

  lemma LogoutEffect(t: Tables, op: Op)
    requires op.Logout?
    ensures var t' := LogoutStep(t, op).0; t' == t || exists sid :: Revokes(t, t', sid)
  {
    var t' := LogoutStep(t, op).0;
    if t' != t {
      assert Revokes(t, t', t.tokens[t.byHash[op.presented]].sessionId);
    }
  }

  lemma InvStep(ttl: nat, t: Tables, op: Op)
    requires Inv(t)
    ensures Inv(Apply(ttl, t, op).0)
  {
    hide Inv, IssueStep, RefreshStep, LogoutStep, Marks, Links;
    var t' := Apply(ttl, t, op).0;
    match op
    case Issue(user, amr, sessionId, tokenId, hash, now) => IssueKeepsInv(ttl, t, op);
    case Refresh(presented, tokenId, hash, now) =>
      RefreshEffect(ttl, t, op);
      if t' != t {
        var id := t.byHash[presented];
        var x := Token(t.tokens[id].sessionId, hash, now + ttl, None, None, None);
        if Rotates(t, t', id, tokenId, x, now) { LinkKeepsInv(t, t', id, tokenId, x, now); }
        else { MarkKeepsInv(t, t', t.tokens[id].sessionId); }
      }
    case Logout(presented, now) =>
      LogoutEffect(t, op);
      if sid :| Revokes(t, t', sid) { MarkKeepsInv(t, t', sid); }
    case _ => TenantsDoNotMatter(t, t');
  }

  lemma TenantsDoNotMatter(t: Tables, t': Tables)
    requires Inv(t) && t' == t.(tenants := t'.tenants)
    ensures Inv(t')
  {
    hide HasChain;
  }

  // What the chain says: exactly one token of a live family is unused, and a token is used exactly
  // when its successor is set, which is a different token of the same session.
  lemma ChainMeaning(t: Tables, sid: Id)
    requires Inv(t) && sid in t.sessions
    ensures exists last ::
              && last in t.tokens && t.tokens[last].sessionId == sid && t.tokens[last].usedAt.None?
              && forall id :: id in t.tokens && t.tokens[id].sessionId == sid && t.tokens[id].usedAt.None? ==> id == last
    ensures forall id :: id in t.tokens && t.tokens[id].sessionId == sid ==>
              && (t.tokens[id].usedAt.Some? <==> t.tokens[id].replacedBy.Some?)
              && (t.tokens[id].replacedBy.Some? ==>
                    var next := t.tokens[id].replacedBy.value;
                    next != id && next in t.tokens && t.tokens[next].sessionId == sid)
  {
    hide Indexed;
    assert HasChain(t.tokens, sid);
    var chain :| IsChain(t.tokens, sid, chain);
    var last := chain[|chain| - 1];
    assert last in chain;
    forall id | id in t.tokens && t.tokens[id].sessionId == sid
      ensures t.tokens[id].usedAt.None? ==> id == last
      ensures t.tokens[id].usedAt.Some? <==> t.tokens[id].replacedBy.Some?
      ensures t.tokens[id].replacedBy.Some? ==>
                var next := t.tokens[id].replacedBy.value;
                next != id && next in t.tokens && t.tokens[next].sessionId == sid
    {
      assert id in chain;
      var k :| 0 <= k < |chain| && chain[k] == id;
      if k < |chain| - 1 { assert chain[k + 1] in chain; }
    }
  }

  // --- Runs ---

  function Run(ttl: nat, t: Tables, ops: seq<Op>): Tables {
    if ops == [] then t else Apply(ttl, Run(ttl, t, ops[..|ops| - 1]), ops[|ops| - 1]).0
  }

  // The state before operation i, and its result.
  function Before(ttl: nat, ops: seq<Op>, i: nat): Tables
    requires i <= |ops|
  {
    Run(ttl, EMPTY, ops[..i])
  }

  function ResultOf(ttl: nat, ops: seq<Op>, i: nat): Result
    requires i < |ops|
  {
    Apply(ttl, Before(ttl, ops, i), ops[i]).1
  }

  lemma BeforeNext(ttl: nat, ops: seq<Op>, i: nat)
    requires i < |ops|
    ensures Before(ttl, ops, i + 1) == Apply(ttl, Before(ttl, ops, i), ops[i]).0
  {
    assert ops[..i + 1][..i] == ops[..i];
  }

  // Main result: the chain invariant holds in every state of every run.
  lemma {:induction false} RunKeepsInv(ttl: nat, ops: seq<Op>, i: nat)
    requires i <= |ops|
    ensures Inv(Before(ttl, ops, i))
  {
    if i > 0 {
      RunKeepsInv(ttl, ops, i - 1);
      InvStep(ttl, Before(ttl, ops, i - 1), ops[i - 1]);
      BeforeNext(ttl, ops, i - 1);
    }
  }

  // What no operation undoes: sessions keep user and amr, a revocation keeps its time and reason,
  // tokens keep hash and session, a used token stays used, and a revoked session gains no token.
  ghost predicate SessionsKept(a: Tables, b: Tables) {
    forall s :: s in a.sessions ==>
      && s in b.sessions && b.sessions[s].userId == a.sessions[s].userId && b.sessions[s].amr == a.sessions[s].amr
      && (a.sessions[s].revokedAt.Some? ==>
            b.sessions[s].revokedAt == a.sessions[s].revokedAt && b.sessions[s].reason == a.sessions[s].reason)
  }

  ghost predicate TokensKept(a: Tables, b: Tables) {
    && (forall k :: k in a.tokens ==>
          && k in b.tokens && b.tokens[k].hash == a.tokens[k].hash && b.tokens[k].sessionId == a.tokens[k].sessionId
          && (a.tokens[k].usedAt.Some? ==> b.tokens[k].usedAt == a.tokens[k].usedAt))
    && (forall h :: h in a.byHash ==> h in b.byHash && b.byHash[h] == a.byHash[h])
  }

  ghost predicate RevokedGainNothing(a: Tables, b: Tables) {
    forall k :: k in b.tokens && k !in a.tokens && b.tokens[k].sessionId in a.sessions ==>
      a.sessions[b.tokens[k].sessionId].revokedAt.None?
  }

  ghost predicate Preserves(a: Tables, b: Tables) {
    SessionsKept(a, b) && TokensKept(a, b) && RevokedGainNothing(a, b)
  }

  lemma RotatePreserves(t: Tables, t': Tables, id: Id, next: Id, x: Token, now: Time)
    requires Indexed(t) && Rotates(t, t', id, next, x, now)
    ensures Preserves(t, t')
  {
    assert TokensKept(t, t') by { LinkKeepsTokens(t, t', id, next, x, now); }
    assert forall k :: k in t'.tokens && k !in t.tokens ==> k == next;
  }

  lemma LinkKeepsTokens(t: Tables, t': Tables, id: Id, next: Id, x: Token, now: Time)
    requires Links(t, t', id, next, x, now)
    ensures TokensKept(t, t')
  {
  }

  lemma RevokePreserves(t: Tables, t': Tables, sid: Id)
    requires Revokes(t, t', sid)
    ensures Preserves(t, t')
  {
  }

  lemma StepPreserves(ttl: nat, t: Tables, op: Op)
    requires Indexed(t)
    ensures Preserves(t, Apply(ttl, t, op).0)
  {
    var t' := Apply(ttl, t, op).0;
    if op.Refresh? {
      hide *;
      ApplyRefresh(ttl, t, op);
      RefreshEffect(ttl, t, op);
      if t' == t {
        PreservesSelf(t);
      } else {
        var id := t.byHash[op.presented];
        var x := Token(t.tokens[id].sessionId, op.hash, op.now + ttl, None, None, None);
        if Rotates(t, t', id, op.tokenId, x, op.now) { RotatePreserves(t, t', id, op.tokenId, x, op.now); }
        else { RevokePreserves(t, t', t.tokens[id].sessionId); }
      }
    } else if op.Logout? {
      LogoutEffect(t, op);
      hide LogoutStep, Preserves, Revokes;
      PreservesSelf(t);
      if sid :| Revokes(t, t', sid) { RevokePreserves(t, t', sid); }
    }
  }

  lemma ApplyRefresh(ttl: nat, t: Tables, op: Op)
    requires op.Refresh?
    ensures Apply(ttl, t, op) == RefreshStep(ttl, t, op)
  {
  }

  lemma InvIndexed(t: Tables)
    requires Inv(t)
    ensures Indexed(t)
  {
  }

  lemma PreservesSelf(t: Tables)
    ensures Preserves(t, t)
  {
  }

  // An access token is for the user and with the authentication methods of its session's row.
  lemma GrantMatchesSession(ttl: nat, t: Tables, op: Op)
    ensures var (t', r) := Apply(ttl, t, op);
            r.Granted? ==>
              && (op.Issue? || op.Refresh?)
              && r.access.sessionId in t'.sessions
              && (op.Issue? ==> r.access.sessionId !in t.sessions)
              && t'.sessions[r.access.sessionId].amr == r.access.amr && t'.sessions[r.access.sessionId].userId == r.access.userId
  {
  }

  lemma PreservesTransitive(a: Tables, b: Tables, c: Tables)
    requires Preserves(a, b) && Preserves(b, c)
    ensures Preserves(a, c)
  {
  }

  lemma {:induction false} RunPreserves(ttl: nat, ops: seq<Op>, i: nat, j: nat)
    requires i <= j <= |ops|
    ensures Preserves(Before(ttl, ops, i), Before(ttl, ops, j))
    decreases j - i
  {
    hide *;
    PreservesSelf(Before(ttl, ops, i));
    if i < j {
      RunPreserves(ttl, ops, i, j - 1);
      RunKeepsInv(ttl, ops, j - 1);
      InvIndexed(Before(ttl, ops, j - 1));
      StepPreserves(ttl, Before(ttl, ops, j - 1), ops[j - 1]);
      BeforeNext(ttl, ops, j - 1);
      PreservesTransitive(Before(ttl, ops, i), Before(ttl, ops, j - 1), Before(ttl, ops, j));
    }
  }

  ghost predicate Spent(t: Tables, h: TokenHash) {
    h in t.byHash && t.byHash[h] in t.tokens && t.tokens[t.byHash[h]].usedAt.Some?
  }

  lemma SuccessSpends(ttl: nat, t: Tables, op: Op)
    requires op.Refresh? && Apply(ttl, t, op).1.Granted?
    ensures var (t', r) := Apply(ttl, t, op);
            Spent(t', op.presented) && t'.tokens[t'.byHash[op.presented]].sessionId == r.access.sessionId
  {
  }

  // Main result: a raw refresh token is accepted at most once in a run.
  lemma TokenSucceedsOnce(ttl: nat, ops: seq<Op>, i: nat, j: nat)
    requires i < j < |ops| && ops[i].Refresh? && ops[j].Refresh? && ops[i].presented == ops[j].presented
    requires ResultOf(ttl, ops, i).Granted?
    ensures ResultOf(ttl, ops, j) == AuthenticationError
  {
    hide Before;
    BeforeNext(ttl, ops, i);
    SuccessSpends(ttl, Before(ttl, ops, i), ops[i]);
    assert Spent(Before(ttl, ops, i + 1), ops[i].presented);
    RunPreserves(ttl, ops, i + 1, j);
    assert Spent(Before(ttl, ops, j), ops[j].presented);
  }

  // The step itself: a used or expired token revokes its live session, for the matching reason.
  lemma DeadTokenRevokes(ttl: nat, ops: seq<Op>, i: nat)
    requires i < |ops| && ops[i].Refresh?
    requires var t, h := Before(ttl, ops, i), ops[i].presented;
             h in t.byHash && t.byHash[h] in t.tokens && t.tokens[t.byHash[h]].sessionId in t.sessions
    ensures var t, t', h := Before(ttl, ops, i), Before(ttl, ops, i + 1), ops[i].presented;
            var x := t.tokens[t.byHash[h]];
            t.sessions[x.sessionId].revokedAt.None? && (x.usedAt.Some? || x.revokedAt.Some? || x.expiresAt <= ops[i].now) ==>
              && ResultOf(ttl, ops, i) == AuthenticationError
              && x.sessionId in t'.sessions && t'.sessions[x.sessionId].revokedAt == Some(ops[i].now)
              && t'.sessions[x.sessionId].reason ==
                   Some(if x.usedAt.Some? || x.revokedAt.Some? then RefreshReuseDetected else RefreshExpired)
              && t'.tokens == t.tokens
  {
    BeforeNext(ttl, ops, i);
  }

  // Main result: once revoked, a session grants nothing, gains no token and keeps its revocation.
  lemma RevokedForGood(ttl: nat, ops: seq<Op>, i: nat, j: nat, sid: Id)
    requires i <= j < |ops| && sid in Before(ttl, ops, i).sessions && Before(ttl, ops, i).sessions[sid].revokedAt.Some?
    ensures var a, b := Before(ttl, ops, i), Before(ttl, ops, j);
            && sid in b.sessions && b.sessions[sid].revokedAt == a.sessions[sid].revokedAt && b.sessions[sid].reason == a.sessions[sid].reason
            && (forall k :: k in b.tokens && b.tokens[k].sessionId == sid ==> k in a.tokens)
            && (ResultOf(ttl, ops, j).Granted? ==> ResultOf(ttl, ops, j).access.sessionId != sid)
  {
    RunPreserves(ttl, ops, i, j);
  }

  // From state i on the session is revoked, grants nothing and has no token it did not have then.
  ghost predicate DeadFrom(ttl: nat, ops: seq<Op>, i: nat, sid: Id) {
    && i <= |ops|
    && sid in Before(ttl, ops, i).sessions && Before(ttl, ops, i).sessions[sid].revokedAt.Some?
    && (forall k: nat :: i <= k < |ops| && ResultOf(ttl, ops, k).Granted? ==> ResultOf(ttl, ops, k).access.sessionId != sid)
    && (forall k: nat, id :: i <= k <= |ops| && id in Before(ttl, ops, k).tokens && Before(ttl, ops, k).tokens[id].sessionId == sid ==>
          id in Before(ttl, ops, i).tokens)
  }

  lemma RevokedIsDead(ttl: nat, ops: seq<Op>, i: nat, sid: Id)
    requires i <= |ops| && sid in Before(ttl, ops, i).sessions && Before(ttl, ops, i).sessions[sid].revokedAt.Some?
    ensures DeadFrom(ttl, ops, i, sid)
  {
    hide Before, ResultOf, SessionsKept, TokensKept;
    forall k: nat | i <= k < |ops| && ResultOf(ttl, ops, k).Granted? ensures ResultOf(ttl, ops, k).access.sessionId != sid {
      RevokedForGood(ttl, ops, i, k, sid);
    }
    forall k: nat, id | i <= k <= |ops| && id in Before(ttl, ops, k).tokens && Before(ttl, ops, k).tokens[id].sessionId == sid
      ensures id in Before(ttl, ops, i).tokens
    {
      RunPreserves(ttl, ops, i, k);
    }
  }

  // Main result: presenting a token that is used, revoked or expired leaves its whole family dead for
  // the rest of the run, with no token more than before.
  lemma DeadTokenKillsFamily(ttl: nat, ops: seq<Op>, j: nat)
    requires j < |ops| && ops[j].Refresh?
    requires var t, h := Before(ttl, ops, j), ops[j].presented;
             && h in t.byHash && t.byHash[h] in t.tokens
             && var x := t.tokens[t.byHash[h]]; x.usedAt.Some? || x.revokedAt.Some? || x.expiresAt <= ops[j].now
    ensures var t := Before(ttl, ops, j);
            && ResultOf(ttl, ops, j) == AuthenticationError
            && DeadFrom(ttl, ops, j + 1, t.tokens[t.byHash[ops[j].presented]].sessionId)
            && Before(ttl, ops, j + 1).tokens == t.tokens
  {
    var t := Before(ttl, ops, j);
    var sid := t.tokens[t.byHash[ops[j].presented]].sessionId;
    RunKeepsInv(ttl, ops, j);
    BeforeNext(ttl, ops, j);
    DeadTokenRevokes(ttl, ops, j);
    hide Before, HasChain, DeadFrom;
    assert sid in Before(ttl, ops, j + 1).sessions && Before(ttl, ops, j + 1).sessions[sid].revokedAt.Some?;
    RevokedIsDead(ttl, ops, j + 1, sid);
  }

  // Main result: so whoever presents a token a second time, after it was accepted, ends its family.
  lemma ReuseKillsFamily(ttl: nat, ops: seq<Op>, i: nat, j: nat)
    requires i < j < |ops| && ops[i].Refresh? && ops[j].Refresh? && ops[i].presented == ops[j].presented
    requires ResultOf(ttl, ops, i).Granted?
    ensures DeadFrom(ttl, ops, j + 1, ResultOf(ttl, ops, i).access.sessionId)
    ensures Before(ttl, ops, j + 1).tokens == Before(ttl, ops, j).tokens
  {
    hide Before, DeadFrom;
    BeforeNext(ttl, ops, i);
    SuccessSpends(ttl, Before(ttl, ops, i), ops[i]);
    RunPreserves(ttl, ops, i + 1, j);
    DeadTokenKillsFamily(ttl, ops, j);
  }

  // Main result: all access tokens of a session carry the user and the authentication methods it
  // was created with.
  lemma AmrFixedAtCreation(ttl: nat, ops: seq<Op>, i: nat, j: nat)
    requires i < j < |ops| && ResultOf(ttl, ops, i).Granted? && ResultOf(ttl, ops, j).Granted?
    requires ResultOf(ttl, ops, i).access.sessionId == ResultOf(ttl, ops, j).access.sessionId
    ensures ResultOf(ttl, ops, j).access.amr == ResultOf(ttl, ops, i).access.amr
    ensures ResultOf(ttl, ops, j).access.userId == ResultOf(ttl, ops, i).access.userId
    ensures ops[j].Refresh?
  {
    hide Apply, Before;
    BeforeNext(ttl, ops, i);
    BeforeNext(ttl, ops, j);
    GrantMatchesSession(ttl, Before(ttl, ops, i), ops[i]);
    GrantMatchesSession(ttl, Before(ttl, ops, j), ops[j]);
    RunPreserves(ttl, ops, i + 1, j);
    RunPreserves(ttl, ops, i + 1, j + 1);
  }

  // --- What each use case answers, and writes ---

  // The tenant of the user's last successful join with no leave since.
  function TenantOf(ops: seq<Op>, user: Id): Option<Id> {
    if ops == [] then None
    else
      var before, op := TenantOf(ops[..|ops| - 1], user), ops[|ops| - 1];
      if op.Leave? && op.user == user then None
      else if op.Join? && op.user == user && before.None? then Some(op.tenant)
      else before
  }

  lemma TenantsStep(ttl: nat, t: Tables, op: Op, user: Id)
    ensures var t' := Apply(ttl, t, op).0;
            var before := if user in t.tenants then Some(t.tenants[user]) else None;
            (if user in t'.tenants then Some(t'.tenants[user]) else None) ==
            if op.Leave? && op.user == user then None else if op.Join? && op.user == user && before.None? then Some(op.tenant) else before
  {
  }

  lemma {:induction false} TenantsAre(ttl: nat, ops: seq<Op>, i: nat, user: Id)
    requires i <= |ops|
    ensures TenantOf(ops[..i], user) == if user in Before(ttl, ops, i).tenants then Some(Before(ttl, ops, i).tenants[user]) else None
  {
    if i > 0 {
      hide Before, Apply;
      TenantsAre(ttl, ops, i - 1, user);
      BeforeNext(ttl, ops, i - 1);
      TenantsStep(ttl, Before(ttl, ops, i - 1), ops[i - 1], user);
      assert ops[..i][..i - 1] == ops[..i - 1];
    } else {
      assert Before(ttl, ops, 0) == EMPTY;
    }
  }

  // Main result: a login is granted exactly when its user has a membership and the drawn ids are new; the
  // access token names the user, that membership's tenant, the new session and the login's methods. The
  // session starts live with one token, unused, for the lifetime from now on; nothing else changes.
  lemma LoginOutcome(ttl: nat, ops: seq<Op>, i: nat)
    requires i < |ops| && ops[i].Issue?
    ensures var t, t', op, r := Before(ttl, ops, i), Before(ttl, ops, i + 1), ops[i], ResultOf(ttl, ops, i);
            var tenant := TenantOf(ops[..i], op.user);
            && (r == AuthenticationError <==> tenant.None?)
            && (r == IntegrityError <==> tenant.Some? && (op.sessionId in t.sessions || op.tokenId in t.tokens || op.hash in t.byHash))
            && (r.Granted? || t' == t)
            && (!r.Granted? ==> r in {AuthenticationError, IntegrityError})
            && (r.Granted? ==>
                  && r.refresh == op.hash && r.access.userId == op.user && Some(r.access.tenantId) == tenant
                  && r.access.sessionId == op.sessionId && r.access.amr == op.amr
                  && t'.sessions == t.sessions[op.sessionId := Session(op.user, None, None, op.now, op.amr)]
                  && t'.tokens == t.tokens[op.tokenId := Token(op.sessionId, op.hash, op.now + ttl, None, None, None)]
                  && (forall id :: id in t'.tokens && t'.tokens[id].sessionId == op.sessionId <==> id == op.tokenId)
                  && t'.byHash == t.byHash[op.hash := op.tokenId] && t'.tenants == t.tenants)
  {
    RunKeepsInv(ttl, ops, i);
    InvIndexed(Before(ttl, ops, i));
    TenantsAre(ttl, ops, i, ops[i].user);
    BeforeNext(ttl, ops, i);
    hide Before, Inv;
  }

  // The refresh finds its token good: live session, unused, unrevoked and not expired.
  ghost predicate Good(t: Tables, presented: TokenHash, now: Time) {
    && presented in t.byHash && t.byHash[presented] in t.tokens
    && var x := t.tokens[t.byHash[presented]];
       && x.sessionId in t.sessions && t.sessions[x.sessionId].revokedAt.None?
       && x.usedAt.None? && x.revokedAt.None? && now < x.expiresAt
  }

  // Main result: a refresh is granted exactly when its token is good, the drawn ids are new and the user has
  // a membership; the access token names the session, its user and methods and the membership's tenant. A
  // good token is rotated with or without a membership: it is used from now on, and followed by one new
  // token for the lifetime from now on.
  lemma RefreshOutcome(ttl: nat, ops: seq<Op>, i: nat)
    requires i < |ops| && ops[i].Refresh?
    ensures var t, t', op, r := Before(ttl, ops, i), Before(ttl, ops, i + 1), ops[i], ResultOf(ttl, ops, i);
            var good, drawn := Good(t, op.presented, op.now), op.tokenId !in t.tokens && op.hash !in t.byHash;
            && (r == IntegrityError <==> good && !drawn)
            && (r.Granted? || r in {AuthenticationError, IntegrityError})
            && (r.Granted? ==> good && drawn)
            && (!good ==> t'.tokens == t.tokens && t'.byHash == t.byHash)
            && (r == IntegrityError ==> t' == t)
            && t'.tenants == t.tenants
            && (good && drawn ==>
                  var id := t.byHash[op.presented];
                  var x := t.tokens[id];
                  var session := t.sessions[x.sessionId];
                  var tenant := TenantOf(ops[..i], session.userId);
                  && (r.Granted? <==> tenant.Some?)
                  && (r.Granted? ==>
                        && r.refresh == op.hash && r.access.userId == session.userId && Some(r.access.tenantId) == tenant
                        && r.access.sessionId == x.sessionId && r.access.amr == session.amr)
                  && t'.sessions == t.sessions[x.sessionId := session.(lastUsedAt := op.now)]
                  && t'.tokens == t.tokens[op.tokenId := Token(x.sessionId, op.hash, op.now + ttl, None, None, None)]
                                          [id := x.(usedAt := Some(op.now), replacedBy := Some(op.tokenId))]
                  && t'.byHash == t.byHash[op.hash := op.tokenId])
  {
    var t := Before(ttl, ops, i);
    if Good(t, ops[i].presented, ops[i].now) {
      TenantsAre(ttl, ops, i, t.sessions[t.tokens[t.byHash[ops[i].presented]].sessionId].userId);
    }
    BeforeNext(ttl, ops, i);
    hide Before;
  }

  // Main result: logging out with any token of a live session revokes the session, for that reason, and its
  // family is dead from then on; every other logout changes nothing.
  lemma LogoutOutcome(ttl: nat, ops: seq<Op>, i: nat)
    requires i < |ops| && ops[i].Logout?
    ensures var t, t', op := Before(ttl, ops, i), Before(ttl, ops, i + 1), ops[i];
            && ResultOf(ttl, ops, i) == Completed
            && if op.presented in t.byHash && t.byHash[op.presented] in t.tokens && t.tokens[t.byHash[op.presented]].sessionId in t.sessions
                  && t.sessions[t.tokens[t.byHash[op.presented]].sessionId].revokedAt.None?
               then
                 var sid := t.tokens[t.byHash[op.presented]].sessionId;
                 && t' == t.(sessions := t'.sessions)
                 && t'.sessions == t.sessions[sid := t.sessions[sid].(revokedAt := Some(op.now), reason := Some(UserLogout))]
                 && DeadFrom(ttl, ops, i + 1, sid)
               else t' == t
  {
    BeforeNext(ttl, ops, i);
    var t, op := Before(ttl, ops, i), ops[i];
    if op.presented in t.byHash && t.byHash[op.presented] in t.tokens && t.tokens[t.byHash[op.presented]].sessionId in t.sessions
      && t.sessions[t.tokens[t.byHash[op.presented]].sessionId].revokedAt.None? {
      RevokedIsDead(ttl, ops, i + 1, t.tokens[t.byHash[op.presented]].sessionId);
    }
    hide Before, DeadFrom;
  }
}
