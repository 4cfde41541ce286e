// The browser's single-flight refreshSession against the server of interleaved transactions: one browser
// context, its cookie, the one refresh it may have in flight, and any number of logins and logouts.
//
// Every call of refreshSession (apiRequest after a 401, the proactive timer, session bootstrap) is
// the step CallRefresh, taken at any moment; requests without the cookie do not matter here.
module BrowserClient {
  import opened Wrappers
  import opened RefreshTokens
  import Server = RefreshRaces

  // `refreshPromise`: none, the request sent with the cookie of that moment, its transaction under way on
  // the server, or answered but not delivered (with the cookie the answer sets, if any).
  datatype Flight = Idle | Sent(cookie: Option<TokenHash>) | Served(tx: nat, token: TokenHash) | Answered(setCookie: Option<TokenHash>)

  datatype Request =
    | LoginSent
    | LoginAnswered(setCookie: Option<TokenHash>)
    | LogoutSent(cookie: Option<TokenHash>)
    | LogoutServed(tx: nat)
    | LogoutAnswered

  // History, which no step reads: the sessions this browser's logins opened, and the tokens it presented
  // that were rotated without an answer because the user had no membership.
  datatype Own = Own(sessions: set<Id>, unanswered: set<TokenHash>)

  datatype System = System(server: Server.State, cookie: Option<TokenHash>, flight: Flight, requests: map<nat, Request>, own: Own)

  datatype Step =
    | CallRefresh
    | ReadRefresh(tx: nat, now: Time)
    | CommitRefresh(tokenId: Id, hash: TokenHash)
    | FailRefresh                          // rate limited, or failed and rolled back
    | DeliverRefresh(clears: bool)         // `clears`: an error response that deletes the cookie
    | SendLogin(i: nat)
    | ServeLogin(i: nat, user: Id, amr: seq<string>, sessionId: Id, tokenId: Id, hash: TokenHash, now: Time)
    | DeliverLogin(i: nat)
    | SendLogout(i: nat)
    | ReadLogout(i: nat, tx: nat, now: Time)
    | CommitLogout(i: nat)
    | FailLogout(i: nat)
    | DeliverLogout(i: nat, clears: bool)
    | Elsewhere(step: Server.Step)         // any other client of the server

  function SessionOf(t: Tables, h: TokenHash): Option<Id> {
    if h in t.byHash && t.byHash[h] in t.tokens then Some(t.tokens[t.byHash[h]].sessionId) else None
  }

  predicate OwnToken(s: System, h: TokenHash) {
    SessionOf(s.server.tables, h).Some? && SessionOf(s.server.tables, h).value in s.own.sessions
  }

  predicate OwnTx(s: System, tx: nat) {
    (s.flight.Served? && s.flight.tx == tx) || exists i | i in s.requests :: s.requests[i] == LogoutServed(tx)
  }

  // Other clients do not present this browser's tokens for refresh, and finish their own transactions.
  predicate Foreign(s: System, step: Server.Step) {
    match step
    case ReadRefresh(_, h, _) => !OwnToken(s, h)
    case Commit(tx, _, _) => !OwnTx(s, tx)
    case Abort(tx) => !OwnTx(s, tx)
    case _ => true
  }

  // What the step asks of the server, if anything.
  function Asks(s: System, step: Step): Option<Server.Step> {
    match step
    case ReadRefresh(tx, now) =>
      if s.flight.Sent? && s.flight.cookie.Some? then Some(Server.ReadRefresh(tx, s.flight.cookie.value, now)) else None
    case CommitRefresh(tokenId, hash) => if s.flight.Served? then Some(Server.Commit(s.flight.tx, tokenId, hash)) else None
    case FailRefresh => if s.flight.Served? then Some(Server.Abort(s.flight.tx)) else None
    case ServeLogin(_, user, amr, sessionId, tokenId, hash, now) => Some(Server.Whole(Issue(user, amr, sessionId, tokenId, hash, now)))
    case ReadLogout(i, tx, now) =>
      if i in s.requests && s.requests[i].LogoutSent? && s.requests[i].cookie.Some? then Some(Server.ReadLogout(tx, s.requests[i].cookie.value, now))
      else None
    case CommitLogout(i) => if i in s.requests && s.requests[i].LogoutServed? then Some(Server.Commit(s.requests[i].tx, 0, 0)) else None
    case FailLogout(i) => if i in s.requests && s.requests[i].LogoutServed? then Some(Server.Abort(s.requests[i].tx)) else None
    case Elsewhere(st) => Some(st)
    case _ => None
  }

  ghost predicate Enabled(ttl: nat, s: System, step: Step) {
    && (Asks(s, step).Some? ==> Server.Next(ttl, s.server, Asks(s, step).value).Some?)
    && match step
       case CallRefresh => true
       case ReadRefresh(_, _) => s.flight.Sent?
       case CommitRefresh(_, _) => s.flight.Served?
       case FailRefresh => s.flight.Sent? || s.flight.Served?
       case DeliverRefresh(_) => s.flight.Answered?
       case SendLogin(i) => i !in s.requests
       case ServeLogin(i, _, _, _, _, _, _) => i in s.requests && s.requests[i].LoginSent?
       case DeliverLogin(i) => i in s.requests && s.requests[i].LoginAnswered?
       case SendLogout(i) => i !in s.requests
       case ReadLogout(i, _, _) => i in s.requests && s.requests[i].LogoutSent?
       case CommitLogout(i) => i in s.requests && s.requests[i].LogoutServed?
       case FailLogout(i) => i in s.requests && (s.requests[i].LogoutSent? || s.requests[i].LogoutServed?)
       case DeliverLogout(i, _) => i in s.requests && s.requests[i].LogoutAnswered?
       case Elsewhere(st) => Foreign(s, st)
  }

  // The commit rotates the token although the user of its session has no membership.
  ghost predicate Unanswered(s: Server.State, tx: nat, next: Id, hash: TokenHash) {
    && tx in s.open && s.open[tx].plan.Rotation? && next !in s.tables.tokens && hash !in s.tables.byHash
    && s.open[tx].session.userId !in s.tables.tenants
  }

  function GrantedCookie(answer: Option<Result>): Option<TokenHash> {
    if answer.Some? && answer.value.Granted? then Some(answer.value.refresh) else None
  }

  // The server's effect; nothing when it is not asked.
  ghost function ServerEffect(ttl: nat, s: System, step: Step): Server.Effect
    requires Enabled(ttl, s, step)
  {
    if Asks(s, step).Some? then Server.Next(ttl, s.server, Asks(s, step).value).value else Server.Effect(s.server, None)
  }

  ghost function Next(ttl: nat, s: System, step: Step): System
    requires Enabled(ttl, s, step)
  {
    var e := ServerEffect(ttl, s, step);
    match step
    case CallRefresh => if s.flight.Idle? then s.(flight := Sent(s.cookie)) else s
    case ReadRefresh(tx, _) =>
      s.(server := e.state, flight := if s.flight.cookie.None? || e.answer.Some? then Answered(None) else Served(tx, s.flight.cookie.value))
    case CommitRefresh(next, hash) =>
      s.(server := e.state, flight := Answered(GrantedCookie(e.answer)),
         own := if Unanswered(s.server, s.flight.tx, next, hash) then s.own.(unanswered := s.own.unanswered + {s.flight.token}) else s.own)
    case FailRefresh => s.(server := e.state, flight := Answered(None))
    case DeliverRefresh(clears) =>
      s.(flight := Idle, cookie := if s.flight.setCookie.Some? then s.flight.setCookie else if clears then None else s.cookie)
    case SendLogin(i) => s.(requests := s.requests[i := LoginSent])
    case ServeLogin(i, _, _, sessionId, _, _, _) =>
      var set' := GrantedCookie(e.answer);
      s.(server := e.state, requests := s.requests[i := LoginAnswered(set')],
         own := if set'.Some? then s.own.(sessions := s.own.sessions + {sessionId}) else s.own)
    case DeliverLogin(i) =>
      s.(cookie := if s.requests[i].setCookie.Some? then s.requests[i].setCookie else s.cookie, requests := s.requests - {i})
    case SendLogout(i) => s.(requests := s.requests[i := LogoutSent(s.cookie)])
    case ReadLogout(i, tx, _) =>
      s.(server := e.state,
         requests := s.requests[i := if s.requests[i].cookie.None? || e.answer.Some? then LogoutAnswered else LogoutServed(tx)])
    case CommitLogout(i) => s.(server := e.state, requests := s.requests[i := LogoutAnswered])
    case FailLogout(i) => s.(server := e.state, requests := s.requests[i := LogoutAnswered])
    case DeliverLogout(i, clears) => s.(cookie := if clears then None else s.cookie, requests := s.requests - {i})
    case Elsewhere(_) => s.(server := e.state)
  }

  // --- Invariant ---

  // One of this browser's tokens, and presenting it cannot look like reuse: it is unused, or its session
  // is already revoked, unless its rotation went unanswered.
  ghost predicate Safe(t: Tables, own: Own, h: TokenHash) {
    && SessionOf(t, h).Some? && SessionOf(t, h).value in own.sessions && SessionOf(t, h).value in t.sessions
    && t.tokens[t.byHash[h]].revokedAt.None?
    && (t.tokens[t.byHash[h]].usedAt.None? || t.sessions[SessionOf(t, h).value].revokedAt.Some? || h in own.unanswered)
  }

  ghost predicate SafeIf(t: Tables, own: Own, c: Option<TokenHash>) { c.Some? ==> Safe(t, own, c.value) }

  // The cookie that a future refresh could present: not the stored one while a new one is on its way.
  ghost predicate Superseded(f: Flight) { f.Answered? && f.setCookie.Some? }

  function InFlight(f: Flight): Option<TokenHash> {
    match f
    case Idle => None
    case Sent(c) => c
    case Served(_, h) => Some(h)
    case Answered(c) => c
  }

  ghost predicate Pending(s: System, i: nat, h: TokenHash) { i in s.requests && s.requests[i] == LoginAnswered(Some(h)) }

  ghost predicate Held(s: System) {
    && (s.cookie.Some? ==> s.cookie.value in s.server.tables.byHash)
    && (!Superseded(s.flight) ==> SafeIf(s.server.tables, s.own, s.cookie))
    && SafeIf(s.server.tables, s.own, InFlight(s.flight))
    && (forall i: nat, h: TokenHash :: Pending(s, i, h) ==>
          && Safe(s.server.tables, s.own, h) && s.cookie != Some(h) && InFlight(s.flight) != Some(h)
          && forall j: nat :: Pending(s, j, h) ==> j == i)
  }

  // The transaction of the refresh in flight is the only one that refreshes a session of this browser,
  // and decided on reuse exactly when the rotation of its token went unanswered.
  ghost predicate TxsRight(s: System) {
    && (s.flight.Served? ==>
          && s.flight.tx in s.server.open && s.server.open[s.flight.tx].locks
          && s.flight.token in s.server.tables.byHash && s.server.tables.byHash[s.flight.token] == s.server.open[s.flight.tx].tokenId
          && (s.server.open[s.flight.tx].plan == Server.Revocation(RefreshReuseDetected) <==> s.flight.token in s.own.unanswered))
    && (forall i: nat :: i in s.server.open && s.server.open[i].locks && OwnSession(s, i) ==> s.flight.Served? && s.flight.tx == i)
    && (forall i: nat :: i in s.server.open && !s.server.open[i].locks ==> s.server.open[i].plan == Server.Revocation(UserLogout))
    && LogoutsRight(s)
  }

  ghost predicate OwnSession(s: System, i: nat) {
    Server.SessionAt(s.server, i).Some? && Server.SessionAt(s.server, i).value in s.own.sessions
  }

  // Each logout under way has a transaction of its own, which is no refresh.
  ghost predicate LogoutsRight(s: System) {
    && (forall i: nat :: i in s.requests && s.requests[i].LogoutServed? ==>
          s.requests[i].tx in s.server.open && !s.server.open[s.requests[i].tx].locks)
    && (forall i: nat, j: nat :: i in s.requests && j in s.requests && i != j && s.requests[i].LogoutServed? && s.requests[j].LogoutServed? ==>
          s.requests[i].tx != s.requests[j].tx)
  }

  ghost predicate Known(t: Tables, own: Own) {
    && own.sessions <= t.sessions.Keys
    && (forall h :: h in own.unanswered ==> h in t.byHash && t.byHash[h] in t.tokens && t.tokens[t.byHash[h]].usedAt.Some?)
  }

  ghost predicate SysInv(s: System) {
    Server.Inv(s.server) && Held(s) && TxsRight(s) && Known(s.server.tables, s.own)
  }

  lemma Parts(s: System)
    ensures SysInv(s) <==> Server.Inv(s.server) && Held(s) && TxsRight(s) && Known(s.server.tables, s.own)
  {
  }

  // --- What one server step does ---

  // The step commits the rotation of the token.
  predicate RotatesToken(s: Server.State, st: Server.Step, id: Id) {
    st.Commit? && st.tx in s.open && s.open[st.tx].plan.Rotation? && s.open[st.tx].tokenId == id
  }

  lemma TokenStays(ttl: nat, s: Server.State, st: Server.Step, id: Id)
    requires Server.Next(ttl, s, st).Some? && id in s.tables.tokens && !RotatesToken(s, st, id)
    ensures var t' := Server.Next(ttl, s, st).value.state.tables; id in t'.tokens && t'.tokens[id] == s.tables.tokens[id]
  {
    if st.Whole? { Server.WholeLeavesTokens(ttl, s.tables, st.op); }
    hide Server.LockedByOther, RefreshTokens.Apply, Server.LiveSession, Server.Access;
  }

  // The open transactions after a step.
  lemma OpenAfter(ttl: nat, s: Server.State, st: Server.Step)
    requires Server.Next(ttl, s, st).Some?
    ensures var e := Server.Next(ttl, s, st).value;
            match st
            case ReadRefresh(i, h, now) =>
              && e.state.tables == s.tables && i !in s.open
              && (if e.answer.Some? then e.state == s && !e.answer.value.Granted?
                  else && Server.LiveSession(s.tables, h).Some?
                       && e.state.open == s.open[i := Server.Tx(s.tables.byHash[h], true, Server.LiveSession(s.tables, h).value, now,
                                                               Server.PlanOf(s.tables.tokens[s.tables.byHash[h]], now))])
            case ReadLogout(i, h, now) =>
              && e.state.tables == s.tables && i !in s.open
              && (if e.answer.Some? then e.state == s
                  else && Server.LiveSession(s.tables, h).Some?
                       && e.state.open == s.open[i := Server.Tx(s.tables.byHash[h], false, Server.LiveSession(s.tables, h).value, now,
                                                               Server.Revocation(UserLogout))])
            case Commit(i, _, _) => i in s.open && e.state.open == s.open - {i}
            case Abort(i) => i in s.open && e.state == Server.Closed(s, i)
            case Whole(op) => e.state.open == s.open && !op.Refresh? && !op.Logout?
  {
    hide Server.LockedByOther, Server.CommitRevocation, Server.CommitRotation, Server.Access, RefreshTokens.Apply;
    if st.ReadRefresh? && Server.LiveSession(s.tables, st.presented).Some? { Server.KnownToken(s.tables, st.presented); }
    if st.ReadLogout? && Server.LiveSession(s.tables, st.presented).Some? { Server.KnownToken(s.tables, st.presented); }
  }

  lemma SafeKnown(t: Tables, own: Own, h: TokenHash)
    requires Safe(t, own, h)
    ensures h in t.byHash && t.byHash[h] in t.tokens && t.tokens[t.byHash[h]].sessionId in own.sessions
  {
  }

  // What is kept keeps a safe token safe, unless it is rotated.
  lemma SafeKept(t: Tables, t': Tables, own: Own, more: Own, h: TokenHash)
    requires Safe(t, own, h) && Server.Kept(t, t') && own.sessions <= more.sessions && own.unanswered <= more.unanswered
    requires t.byHash[h] in t'.tokens && t'.tokens[t.byHash[h]] == t.tokens[t.byHash[h]]
    ensures Safe(t', more, h)
  {
  }

  lemma KnownKept(t: Tables, t': Tables, own: Own)
    requires Known(t, own) && Server.Kept(t, t')
    ensures Known(t', own)
  {
  }

  lemma KeysKept(t: Tables, t': Tables)
    requires Server.Kept(t, t')
    ensures t.byHash.Keys <= t'.byHash.Keys
    ensures forall h :: h in t.byHash ==> t'.byHash[h] == t.byHash[h]
  {
  }

  lemma SessionStays(s: Server.State, s': Server.State, i: nat)
    requires Server.Kept(s.tables, s'.tables) && i in s.open && i in s'.open && s'.open[i] == s.open[i] && Server.SessionAt(s, i).Some?
    ensures Server.SessionAt(s', i) == Server.SessionAt(s, i)
  {
  }

  lemma SessionOfTx(s: System, i: nat)
    requires Server.Inv(s.server) && i in s.server.open
    ensures Server.SessionAt(s.server, i).Some? && Server.SessionAt(s.server, i).value in s.server.tables.sessions
    ensures s.server.open[i].plan.Rotation? ==> s.server.open[i].locks
  {
    Server.OpenOk(s.server, i);
  }

  // --- Held cookies while the server moves ---

  lemma HeldUnder(s: System, server: Server.State, own: Own)
    requires Held(s) && s.server.tables.byHash.Keys <= server.tables.byHash.Keys
    requires forall h :: Safe(s.server.tables, s.own, h) ==> Safe(server.tables, own, h)
    ensures Held(s.(server := server, own := own))
  {
    hide Safe, Superseded, InFlight;
    var s' := s.(server := server, own := own);
    forall i: nat, h: TokenHash | Pending(s', i, h)
      ensures Safe(server.tables, own, h) && s'.cookie != Some(h) && InFlight(s'.flight) != Some(h)
      ensures forall j: nat :: Pending(s', j, h) ==> j == i
    {
      assert Pending(s, i, h);
      forall j: nat | Pending(s', j, h) ensures j == i { assert Pending(s, j, h); }
    }
  }

  // Moving to another flight with the same or no token in flight, or other requests with the same or
  // fewer cookies to come.
  lemma HeldLess(s: System, s': System)
    requires Held(s) && s'.server == s.server && s'.own == s.own && s'.cookie == s.cookie
    requires InFlight(s'.flight) == InFlight(s.flight) || InFlight(s'.flight) == None
    requires Superseded(s'.flight) ==> Superseded(s.flight)
    requires Superseded(s.flight) ==> Superseded(s'.flight)
    requires forall i: nat, h: TokenHash :: Pending(s', i, h) ==> Pending(s, i, h)
    ensures Held(s')
  {
    hide Safe, Pending;
  }

  // No step of the server but the commit of the refresh in flight rotates a token of this browser.
  lemma NotRotated(ttl: nat, s: System, step: Step, h: TokenHash)
    requires SysInv(s) && Enabled(ttl, s, step) && !step.CommitRefresh? && Asks(s, step).Some? && Safe(s.server.tables, s.own, h)
    ensures !RotatesToken(s.server, Asks(s, step).value, s.server.tables.byHash[h])
  {
    hide SysInv, Enabled, TxsRight, Held, Known, Safe, OwnTx, Server.Inv, Server.Next;
    var st := Asks(s, step).value;
    Parts(s);
    if st.Commit? && st.tx in s.server.open {
      CommitAsked(ttl, s, step);
      OthersCommit(s, st.tx, h);
    }
  }

  // A commit that is not the browser's refresh is its logout's, or of a transaction that is not its own.
  lemma CommitAsked(ttl: nat, s: System, step: Step)
    requires TxsRight(s) && Enabled(ttl, s, step) && !step.CommitRefresh? && Asks(s, step).Some? && Asks(s, step).value.Commit?
    requires Asks(s, step).value.tx in s.server.open
    ensures var tx := Asks(s, step).value.tx; !OwnTx(s, tx) || !s.server.open[tx].locks
  {
    hide Server.Next;
  }

  lemma OthersCommit(s: System, tx: nat, h: TokenHash)
    requires Server.Inv(s.server) && TxsRight(s) && Safe(s.server.tables, s.own, h) && tx in s.server.open
    requires !OwnTx(s, tx) || !s.server.open[tx].locks
    ensures s.server.open[tx].plan.Rotation? ==> h in s.server.tables.byHash && s.server.open[tx].tokenId != s.server.tables.byHash[h]
  {
    hide Server.Inv;
    SafeKnown(s.server.tables, s.own, h);
    SessionOfTx(s, tx);
    if s.server.open[tx].tokenId == s.server.tables.byHash[h] { assert OwnSession(s, tx); }
  }

  lemma ServerMoves(ttl: nat, s: System, step: Step)
    requires SysInv(s) && Enabled(ttl, s, step) && !step.CommitRefresh? && Asks(s, step).Some?
    ensures var server := ServerEffect(ttl, s, step).state;
            && Held(s.(server := server)) && Known(server.tables, s.own) && Server.Inv(server) && Server.Kept(s.server.tables, server.tables)
            && forall h :: Safe(s.server.tables, s.own, h) ==> Safe(server.tables, s.own, h)
  {
    hide Held, Safe, Known, TxsRight, Server.Inv, Server.Next, Server.Kept;
    var st := Asks(s, step).value;
    var server := ServerEffect(ttl, s, step).state;
    Server.InvStep(ttl, s.server, st);
    Server.StepKeeps(ttl, s.server, st);
    KeysKept(s.server.tables, server.tables);
    KnownKept(s.server.tables, server.tables, s.own);
    forall h | Safe(s.server.tables, s.own, h) ensures Safe(server.tables, s.own, h) {
      SafeKnown(s.server.tables, s.own, h);
      NotRotated(ttl, s, step, h);
      TokenStays(ttl, s.server, st, s.server.tables.byHash[h]);
      SafeKept(s.server.tables, server.tables, s.own, s.own, h);
    }
    HeldUnder(s, server, s.own);
  }

  // --- The transactions while the server moves ---

  // Transactions that were open before stay right; each new one is a logout, of another's session, or the
  // refresh now in flight.
  lemma TxsUnder(s: System, s': System)
    requires Server.Inv(s.server) && TxsRight(s) && s'.own == s.own && Server.Kept(s.server.tables, s'.server.tables)
    requires forall i: nat :: i in s'.server.open && i in s.server.open ==> s'.server.open[i] == s.server.open[i]
    requires forall i: nat :: i in s'.server.open && i !in s.server.open && s'.server.open[i].locks ==> !OwnSession(s', i)
    requires forall i: nat :: i in s'.server.open && i !in s.server.open && !s'.server.open[i].locks ==> s'.server.open[i].plan == Server.Revocation(UserLogout)
    requires if s.flight.Served? && s.flight.tx in s'.server.open then s'.flight == s.flight else !s'.flight.Served?
    requires LogoutsRight(s')
    ensures TxsRight(s')
  {
    hide Server.Inv, Server.Kept, OwnSession, LogoutsRight;
    KeysKept(s.server.tables, s'.server.tables);
    forall i: nat | i in s'.server.open && i in s.server.open ensures OwnSession(s', i) == OwnSession(s, i) { OwnSessionStays(s, s', i); }
  }

  lemma OwnSessionStays(s: System, s': System, i: nat)
    requires Server.Inv(s.server) && Server.Kept(s.server.tables, s'.server.tables) && s'.own == s.own
    requires i in s.server.open && i in s'.server.open && s'.server.open[i] == s.server.open[i]
    ensures OwnSession(s', i) == OwnSession(s, i)
  {
    hide Server.Inv, Server.Kept;
    SessionOfTx(s, i);
    SessionStays(s.server, s'.server, i);
  }

  // A step of another client leaves this browser's transactions alone and opens none of its refreshes.
  lemma ForeignTxs(ttl: nat, s: System, st: Server.Step)
    requires Server.Inv(s.server) && TxsRight(s) && Foreign(s, st) && Server.Next(ttl, s.server, st).Some?
    ensures TxsRight(s.(server := Server.Next(ttl, s.server, st).value.state))
  {
    hide Server.Inv, Server.Next, Server.Kept, Server.PlanOf;
    Server.StepKeeps(ttl, s.server, st);
    OpenAfter(ttl, s.server, st);
    if st.ReadRefresh? && Server.LiveSession(s.server.tables, st.presented).Some? { Server.KnownToken(s.server.tables, st.presented); }
    hide Server.LiveSession;
    TxsUnder(s, s.(server := Server.Next(ttl, s.server, st).value.state));
  }

  lemma ElsewhereKeeps(ttl: nat, s: System, step: Step)
    requires SysInv(s) && step.Elsewhere? && Enabled(ttl, s, step)
    ensures SysInv(Next(ttl, s, step))
  {
    hide SysInv, Held, Known, TxsRight, Foreign, Server.Inv, Server.Next, Server.Kept;
    Parts(s);
    Parts(Next(ttl, s, step));
    ServerMoves(ttl, s, step);
    ForeignTxs(ttl, s, step.step);
  }

  // The transaction in flight is rolled back.
  lemma FailedTxs(ttl: nat, s: System)
    requires Server.Inv(s.server) && TxsRight(s) && s.flight.Served?
    ensures TxsRight(s.(server := Server.Closed(s.server, s.flight.tx), flight := Answered(None)))
  {
    hide Server.Inv;
    Server.KeptSelf(s.server.tables);
    hide Server.Kept, Server.SessionAt;
    TxsUnder(s, s.(server := Server.Closed(s.server, s.flight.tx), flight := Answered(None)));
  }

  lemma FailRefreshKeeps(ttl: nat, s: System, step: Step)
    requires SysInv(s) && step.FailRefresh? && Enabled(ttl, s, step)
    ensures SysInv(Next(ttl, s, step))
  {
    hide SysInv, Held, Known, TxsRight, Server.Inv, Server.Next, Server.Kept, Safe;
    var s' := Next(ttl, s, step);
    Parts(s);
    Parts(s');
    if s.flight.Served? {
      ServerMoves(ttl, s, step);
      OpenAfter(ttl, s.server, Asks(s, step).value);
      FailedTxs(ttl, s);
    } else {
      SameLogouts(s, s');
      SameTxs(s, s');
    }
    HeldLess(s.(server := s'.server), s');
  }

  // Nothing but the flight changes, and it is not with the server.
  lemma SameTxs(s: System, s': System)
    requires TxsRight(s) && s'.server == s.server && s'.own == s.own && LogoutsRight(s')
    requires s'.flight == s.flight || (!s.flight.Served? && !s'.flight.Served?)
    ensures TxsRight(s')
  {
    assert forall i: nat :: OwnSession(s', i) == OwnSession(s, i);
    hide Server.SessionAt;
  }

  lemma SameLogouts(s: System, s': System)
    requires TxsRight(s) && s'.server == s.server && s'.requests == s.requests
    ensures LogoutsRight(s')
  {
  }

  lemma RefreshDecides(s: System, h: TokenHash, now: Time)
    requires Safe(s.server.tables, s.own, h) && Known(s.server.tables, s.own) && Server.LiveSession(s.server.tables, h).Some?
    ensures Server.PlanOf(s.server.tables.tokens[s.server.tables.byHash[h]], now) == Server.Revocation(RefreshReuseDetected)
            <==> h in s.own.unanswered
  {
  }

  lemma ReadRefreshKeeps(ttl: nat, s: System, step: Step)
    requires SysInv(s) && step.ReadRefresh? && Enabled(ttl, s, step)
    ensures SysInv(Next(ttl, s, step))
  {
    hide SysInv, Held, Known, TxsRight, LogoutsRight, Server.Inv, Server.Next, Server.Kept, Safe, Server.LiveSession, Server.PlanOf;
    var s' := Next(ttl, s, step);
    Parts(s);
    Parts(s');
    if s.flight.cookie.None? {
      HeldLess(s, s');
      SameLogouts(s, s');
      SameTxs(s, s');
    } else {
      var h := s.flight.cookie.value;
      ServerMoves(ttl, s, step);
      OpenAfter(ttl, s.server, Asks(s, step).value);
      HeldLess(s.(server := s'.server), s');
      if s'.flight.Served? {
        HeldToken(s, h);
        RefreshDecides(s, h, step.now);
        Server.KnownToken(s.server.tables, h);
        OwnTxOpens(s, s', step.tx);
      } else {
        SameLogouts(s, s');
        SameTxs(s, s');
      }
    }
  }

  lemma HeldToken(s: System, h: TokenHash)
    requires Held(s) && InFlight(s.flight) == Some(h)
    ensures Safe(s.server.tables, s.own, h)
  {
  }

  // The refresh in flight opens its transaction; nothing else changes.
  lemma OwnTxOpens(s: System, s': System, tx: nat)
    requires TxsRight(s) && !s.flight.Served? && tx !in s.server.open && tx in s'.server.open && s'.server.open == s.server.open[tx := s'.server.open[tx]]
    requires s'.server.tables == s.server.tables && s'.own == s.own && s'.requests == s.requests
    requires s'.flight.Served? && s'.flight.tx == tx && s'.server.open[tx].locks
    requires s'.flight.token in s.server.tables.byHash && s.server.tables.byHash[s'.flight.token] == s'.server.open[tx].tokenId
    requires s'.server.open[tx].plan == Server.Revocation(RefreshReuseDetected) <==> s'.flight.token in s.own.unanswered
    ensures TxsRight(s')
  {
    assert forall i: nat :: i in s.server.open ==> OwnSession(s', i) == OwnSession(s, i);
    hide OwnSession;
  }

  // --- The commit of the refresh in flight ---

  // What a commit does to the token it is about, whichever way it was decided.
  lemma CommitEffect(ttl: nat, t: Server.State, own: Own, tx: nat, h: TokenHash, next: Id, hash: TokenHash)
    requires Server.Inv(t) && tx in t.open && h in t.tables.byHash && t.tables.byHash[h] == t.open[tx].tokenId && Safe(t.tables, own, h)
    ensures var e := Server.Next(ttl, t, Server.Commit(tx, next, hash));
            && e.Some?
            && var more := if Unanswered(t, tx, next, hash) then own.(unanswered := own.unanswered + {h}) else own;
               var set' := GrantedCookie(e.value.answer);
               && (if set'.Some? then more == own && Safe(e.value.state.tables, own, set'.value) && set'.value !in t.tables.byHash
                   else Safe(e.value.state.tables, more, h))
               && (more != own ==> h in e.value.state.tables.byHash && e.value.state.tables.byHash[h] in e.value.state.tables.tokens
                                   && e.value.state.tables.tokens[e.value.state.tables.byHash[h]].usedAt.Some?)
  {
    hide Server.Inv;
    Server.OpenOk(t, tx);
    HashOf(t, h);
    if t.open[tx].plan.Revocation? { RevocationEffect(ttl, t, own, tx, h, next, hash); }
    else if next in t.tables.tokens || hash in t.tables.byHash { }
    else { RotationEffect(ttl, t, own, tx, h, next, hash); }
    hide Server.CommitRotation, Server.CommitRevocation, Safe, Server.Access, Server.TxOk;
  }

  lemma RevocationEffect(ttl: nat, t: Server.State, own: Own, tx: nat, h: TokenHash, next: Id, hash: TokenHash)
    requires tx in t.open && Server.TxOk(t.tables, t.open[tx]) && t.open[tx].plan.Revocation?
    requires h in t.tables.byHash && t.tables.byHash[h] == t.open[tx].tokenId && Safe(t.tables, own, h)
    ensures var e := Server.Next(ttl, t, Server.Commit(tx, next, hash));
            e.Some? && GrantedCookie(e.value.answer) == None && Safe(e.value.state.tables, own, h)
  {
  }

  lemma RotationEffect(ttl: nat, t: Server.State, own: Own, tx: nat, h: TokenHash, next: Id, hash: TokenHash)
    requires tx in t.open && Server.TxOk(t.tables, t.open[tx]) && t.open[tx].plan.Rotation?
    requires next !in t.tables.tokens && hash !in t.tables.byHash
    requires h in t.tables.byHash && t.tables.byHash[h] == t.open[tx].tokenId && Safe(t.tables, own, h)
    ensures var e := Server.Next(ttl, t, Server.Commit(tx, next, hash));
            && e.Some?
            && var t' := e.value.state.tables;
               && h in t'.byHash && t'.byHash[h] in t'.tokens && t'.tokens[t'.byHash[h]].usedAt.Some?
               && (if t.open[tx].session.userId in t.tables.tenants then GrantedCookie(e.value.answer) == Some(hash) && Safe(t', own, hash)
                   else GrantedCookie(e.value.answer) == None && Safe(t', own.(unanswered := own.unanswered + {h}), h))
  {
  }

  lemma OtherTokenStays(ttl: nat, s: System, step: Step, k: TokenHash)
    requires SysInv(s) && step.CommitRefresh? && Enabled(ttl, s, step) && Safe(s.server.tables, s.own, k) && k != s.flight.token
    ensures !RotatesToken(s.server, Asks(s, step).value, s.server.tables.byHash[k])
  {
    SafeKnown(s.server.tables, s.own, k);
    HashOf(s.server, k);
    HashOf(s.server, s.flight.token);
    hide Server.Inv, Held, Known, Server.Next;
  }

  lemma HashOf(s: Server.State, h: TokenHash)
    requires Server.Inv(s) && h in s.tables.byHash
    ensures s.tables.byHash[h] in s.tables.tokens && s.tables.tokens[s.tables.byHash[h]].hash == h
  {
    hide HasChain;
  }

  // The refresh in flight is answered: a new safe token, or the presented one is still safe.
  lemma AnswerHeld(s: System, server: Server.State, own: Own, answer: Option<TokenHash>)
    requires Held(s) && s.flight.Served? && s.server.tables.byHash.Keys <= server.tables.byHash.Keys
    requires forall k :: Safe(s.server.tables, s.own, k) && k != s.flight.token ==> Safe(server.tables, own, k)
    requires if answer.Some? then Safe(server.tables, own, answer.value) && answer.value !in s.server.tables.byHash
             else Safe(server.tables, own, s.flight.token)
    ensures Held(s.(server := server, own := own, flight := Answered(answer)))
  {
    var s' := s.(server := server, own := own, flight := Answered(answer));
    forall i: nat, k: TokenHash | Pending(s', i, k)
      ensures Safe(server.tables, own, k) && s'.cookie != Some(k) && InFlight(s'.flight) != Some(k)
      ensures forall j: nat :: Pending(s', j, k) ==> j == i
    {
      assert Pending(s, i, k);
      SafeKnown(s.server.tables, s.own, k);
      forall j: nat | Pending(s', j, k) ensures j == i { assert Pending(s, j, k); }
    }
    hide Safe;
  }

  lemma CommitRefreshHeld(ttl: nat, s: System, step: Step)
    requires SysInv(s) && step.CommitRefresh? && Enabled(ttl, s, step)
    ensures var s' := Next(ttl, s, step); Held(s') && Known(s'.server.tables, s'.own) && Server.Inv(s'.server)
    ensures Server.Kept(s.server.tables, Next(ttl, s, step).server.tables)
  {
    hide SysInv, Held, Safe, Known, TxsRight, LogoutsRight, Server.Inv, Server.Next, Server.Kept, Unanswered;
    Parts(s);
    var st := Asks(s, step).value;
    var e := ServerEffect(ttl, s, step);
    var own := Next(ttl, s, step).own;
    HeldToken(s, s.flight.token);
    FlightOk(s);
    CommitEffect(ttl, s.server, s.own, s.flight.tx, s.flight.token, step.tokenId, step.hash);
    Server.InvStep(ttl, s.server, st);
    Server.StepKeeps(ttl, s.server, st);
    KeysKept(s.server.tables, e.state.tables);
    KnownKept(s.server.tables, e.state.tables, s.own);
    MoreKnown(e.state.tables, s.own, own, s.flight.token);
    forall k | Safe(s.server.tables, s.own, k) && k != s.flight.token ensures Safe(e.state.tables, own, k) {
      SafeKnown(s.server.tables, s.own, k);
      OtherTokenStays(ttl, s, step, k);
      TokenStays(ttl, s.server, st, s.server.tables.byHash[k]);
      SafeKept(s.server.tables, e.state.tables, s.own, own, k);
    }
    AnswerHeld(s, e.state, own, GrantedCookie(e.answer));
  }

  lemma FlightOk(s: System)
    requires TxsRight(s) && s.flight.Served?
    ensures s.flight.tx in s.server.open && s.server.open[s.flight.tx].locks
    ensures s.flight.token in s.server.tables.byHash && s.server.tables.byHash[s.flight.token] == s.server.open[s.flight.tx].tokenId
  {
  }

  lemma CommittedTxs(s: System, server: Server.State, answer: Option<TokenHash>)
    requires Server.Inv(s.server) && TxsRight(s) && s.flight.Served? && server.open == s.server.open - {s.flight.tx}
    requires Server.Kept(s.server.tables, server.tables)
    ensures TxsRight(s.(server := server, flight := Answered(answer)))
  {
    hide Server.Inv, Server.Kept, OwnSession;
    TxsUnder(s, s.(server := server, flight := Answered(answer)));
  }

  lemma CommitRefreshKeeps(ttl: nat, s: System, step: Step)
    requires SysInv(s) && step.CommitRefresh? && Enabled(ttl, s, step)
    ensures SysInv(Next(ttl, s, step))
  {
    hide SysInv, Held, Safe, Known, TxsRight, LogoutsRight, Server.Inv, Server.Next, Server.Kept, Unanswered;
    var s' := Next(ttl, s, step);
    Parts(s);
    Parts(s');
    CommitRefreshHeld(ttl, s, step);
    OpenAfter(ttl, s.server, Asks(s, step).value);
    CommittedTxs(s, s'.server, s'.flight.setCookie);
    TxsOwn(s'.(own := s.own), s'.own);
  }

  lemma MoreKnown(t: Tables, own: Own, more: Own, h: TokenHash)
    requires Known(t, own) && more.sessions == own.sessions
    requires more == own || (more.unanswered == own.unanswered + {h} && h in t.byHash && t.byHash[h] in t.tokens && t.tokens[t.byHash[h]].usedAt.Some?)
    ensures Known(t, more)
  {
  }

  lemma TxsOwn(s: System, own: Own)
    requires TxsRight(s) && !s.flight.Served? && own.sessions == s.own.sessions
    ensures TxsRight(s.(own := own))
  {
    assert forall i: nat :: OwnSession(s.(own := own), i) == OwnSession(s, i);
    hide OwnSession;
  }

  // --- Logins and logouts ---

  // A login answer is added to the requests: its token is new to everything held.
  lemma LoginHeld(s: System, server: Server.State, own: Own, i: nat, answer: Option<TokenHash>)
    requires Held(s) && s.server.tables.byHash.Keys <= server.tables.byHash.Keys && i in s.requests && s.requests[i].LoginSent?
    requires forall h :: Safe(s.server.tables, s.own, h) ==> Safe(server.tables, own, h)
    requires answer.Some? ==> answer.value !in s.server.tables.byHash && Safe(server.tables, own, answer.value)
    ensures Held(s.(server := server, own := own, requests := s.requests[i := LoginAnswered(answer)]))
  {
    var s' := s.(server := server, own := own, requests := s.requests[i := LoginAnswered(answer)]);
    HeldUnder(s, server, own);
    if InFlight(s.flight).Some? { SafeKnown(s.server.tables, s.own, InFlight(s.flight).value); }
    forall j: nat, h: TokenHash | Pending(s', j, h)
      ensures Safe(server.tables, own, h) && s'.cookie != Some(h) && InFlight(s'.flight) != Some(h)
      ensures forall k: nat :: Pending(s', k, h) ==> k == j
    {
      forall k: nat | Pending(s', k, h) ensures k == i <==> answer == Some(h) {
        if k != i { assert Pending(s, k, h); SafeKnown(s.server.tables, s.own, h); }
      }
      if j != i {
        assert Pending(s, j, h);
        forall k: nat | Pending(s', k, h) ensures k == j { if k != i { assert Pending(s, k, h); } }
      }
    }
    hide Safe;
  }

  lemma LoginEffect(ttl: nat, t: Tables, op: Op, own: Own)
    requires op.Issue? && RefreshTokens.Inv(t)
    ensures var (t', r) := RefreshTokens.Apply(ttl, t, op);
            var more := own.(sessions := own.sessions + {op.sessionId});
            r.Granted? ==>
              && r.refresh == op.hash && op.hash !in t.byHash && Safe(t', more, op.hash)
              && op.sessionId !in t.sessions && op.sessionId in t'.sessions && t'.sessions[op.sessionId].reason.None?
  {
    hide HasChain;
  }

  lemma MoreSessions(t: Tables, own: Own, sid: Id, h: TokenHash)
    requires Safe(t, own, h)
    ensures Safe(t, own.(sessions := own.sessions + {sid}), h)
  {
  }

  // Open transactions are of sessions that exist, so not of the one just opened.
  lemma TxsMore(s: System, sid: Id)
    requires Server.Inv(s.server) && TxsRight(s) && forall i: nat :: i in s.server.open ==> Server.SessionAt(s.server, i) != Some(sid)
    ensures TxsRight(s.(own := s.own.(sessions := s.own.sessions + {sid})))
  {
    hide Server.Inv, Server.SessionAt, LogoutsRight;
    SameLogouts(s, s.(own := s.own.(sessions := s.own.sessions + {sid})));
    var s' := s.(own := s.own.(sessions := s.own.sessions + {sid}));
    forall i: nat | i in s.server.open ensures OwnSession(s', i) == OwnSession(s, i) { assert Server.SessionAt(s.server, i) != Some(sid); }
    hide OwnSession;
  }

  lemma NotOfNewSession(s: System, server: Server.State, sid: Id)
    requires Server.Inv(s.server) && server.open == s.server.open && Server.Kept(s.server.tables, server.tables) && sid !in s.server.tables.sessions
    ensures forall i: nat :: i in server.open ==> Server.SessionAt(server, i) != Some(sid)
  {
    forall i: nat | i in server.open ensures Server.SessionAt(server, i) != Some(sid) {
      SessionOfTx(s, i);
      SessionStays(s.server, server, i);
    }
  }

  lemma LoginTxs(s: System, server: Server.State, i: nat, answer: Option<TokenHash>)
    requires Server.Inv(s.server) && TxsRight(s) && server.open == s.server.open && Server.Kept(s.server.tables, server.tables)
    ensures TxsRight(s.(server := server, requests := s.requests[i := LoginAnswered(answer)]))
  {
    hide Server.Inv, Server.Kept, OwnSession;
    TxsUnder(s, s.(server := server, requests := s.requests[i := LoginAnswered(answer)]));
  }

  lemma IssueIs(ttl: nat, s: Server.State, op: Op)
    requires op.Issue?
    ensures var (t, r) := RefreshTokens.Apply(ttl, s.tables, op);
            Server.Next(ttl, s, Server.Whole(op)) == Some(Server.Effect(s.(tables := t), Some(r)))
  {
  }

  lemma ServeLoginKeeps(ttl: nat, s: System, step: Step)
    requires SysInv(s) && step.ServeLogin? && Enabled(ttl, s, step)
    ensures SysInv(Next(ttl, s, step))
  {
    hide SysInv, Held, Safe, Known, TxsRight, LogoutsRight, OwnSession, Server.Inv, Server.Next, Server.Kept, RefreshTokens.Apply, RefreshTokens.Inv;
    var s', e := Next(ttl, s, step), ServerEffect(ttl, s, step);
    var op := Issue(step.user, step.amr, step.sessionId, step.tokenId, step.hash, step.now);
    Parts(s);
    Parts(s');
    ServerMoves(ttl, s, step);
    IssueIs(ttl, s.server, op);
    Server.TablesOk(s.server);
    LoginEffect(ttl, s.server.tables, op, s.own);
    KeysKept(s.server.tables, e.state.tables);
    forall h | Safe(s.server.tables, s.own, h) ensures Safe(e.state.tables, s'.own, h) { MoreSessions(e.state.tables, s.own, step.sessionId, h); }
    LoginHeld(s, e.state, s'.own, step.i, GrantedCookie(e.answer));
    LoginTxs(s, e.state, step.i, GrantedCookie(e.answer));
    if GrantedCookie(e.answer).Some? {
      KnownSession(e.state.tables, s.own, step.sessionId);
      NotOfNewSession(s, e.state, step.sessionId);
      TxsMore(s'.(own := s.own), step.sessionId);
    }
  }

  lemma KnownSession(t: Tables, own: Own, sid: Id)
    requires Known(t, own) && sid in t.sessions
    ensures Known(t, own.(sessions := own.sessions + {sid}))
  {
  }

  // A logout opens or closes its own transaction.
  lemma LogoutTxs(s: System, s': System, i: nat)
    requires Server.Inv(s.server) && TxsRight(s) && s'.own == s.own && s'.flight == s.flight && Server.Kept(s.server.tables, s'.server.tables)
    requires i in s.requests && i in s'.requests && s'.requests == s.requests[i := s'.requests[i]]
    requires if s'.requests[i].LogoutServed? then
               && s.requests[i].LogoutSent? && s'.requests[i].tx !in s.server.open && s'.requests[i].tx in s'.server.open
               && s'.server.open == s.server.open[s'.requests[i].tx := s'.server.open[s'.requests[i].tx]]
               && !s'.server.open[s'.requests[i].tx].locks && s'.server.open[s'.requests[i].tx].plan == Server.Revocation(UserLogout)
             else if s.requests[i].LogoutServed? then s'.server.open == s.server.open - {s.requests[i].tx}
             else s'.server.open == s.server.open
    ensures TxsRight(s')
  {
    hide Server.Inv, Server.Kept, OwnSession;
    TxsUnder(s, s');
  }

  lemma LogoutKeeps(ttl: nat, s: System, step: Step)
    requires SysInv(s) && (step.ReadLogout? || step.CommitLogout? || step.FailLogout?) && Enabled(ttl, s, step)
    ensures SysInv(Next(ttl, s, step))
  {
    hide SysInv, Held, Known, TxsRight, LogoutsRight, Server.Inv, Server.Next, Server.Kept, Safe, Server.LiveSession;
    var s' := Next(ttl, s, step);
    Parts(s);
    Parts(s');
    if Asks(s, step).Some? {
      ServerMoves(ttl, s, step);
      OpenAfter(ttl, s.server, Asks(s, step).value);
    } else {
      Server.KeptSelf(s.server.tables);
    }
    HeldLess(s.(server := s'.server), s');
    LogoutTxs(s, s', step.i);
  }

  // The browser's own steps only move held cookies around or drop them.
  lemma LocalHeld(ttl: nat, s: System, step: Step)
    requires Held(s) && Enabled(ttl, s, step)
    requires step.CallRefresh? || step.DeliverRefresh? || step.SendLogin? || step.DeliverLogin? || step.SendLogout? || step.DeliverLogout?
    ensures var s' := Next(ttl, s, step); Held(s') && s'.server == s.server && s'.own == s.own
  {
    var s' := Next(ttl, s, step);
    forall k | Safe(s.server.tables, s.own, k) ensures k in s.server.tables.byHash { SafeKnown(s.server.tables, s.own, k); }
    hide Safe, Server.Next;
    assert step.DeliverLogin? && s.requests[step.i].setCookie.Some? ==> Pending(s, step.i, s.requests[step.i].setCookie.value);
    forall i: nat, k: TokenHash | Pending(s', i, k)
      ensures Safe(s.server.tables, s.own, k) && s'.cookie != Some(k) && InFlight(s'.flight) != Some(k)
      ensures forall j: nat :: Pending(s', j, k) ==> j == i
    {
      assert Pending(s, i, k);
      forall j: nat | Pending(s', j, k) ensures j == i { assert Pending(s, j, k); }
    }
  }

  lemma LocalKeeps(ttl: nat, s: System, step: Step)
    requires SysInv(s) && Enabled(ttl, s, step)
    requires step.CallRefresh? || step.DeliverRefresh? || step.SendLogin? || step.DeliverLogin? || step.SendLogout? || step.DeliverLogout?
    ensures SysInv(Next(ttl, s, step))
  {
    hide SysInv, Held, Known, TxsRight, Server.Inv, Server.Next;
    var s' := Next(ttl, s, step);
    Parts(s);
    Parts(s');
    LocalHeld(ttl, s, step);
    LocalLogouts(s, s');
    SameTxs(s, s');
  }

  lemma LocalLogouts(s: System, s': System)
    requires TxsRight(s) && s'.server == s.server
    requires forall i: nat :: i in s'.requests && s'.requests[i].LogoutServed? ==> i in s.requests && s'.requests[i] == s.requests[i]
    ensures LogoutsRight(s')
  {
  }

  lemma InvNext(ttl: nat, s: System, step: Step)
    requires SysInv(s) && Enabled(ttl, s, step)
    ensures SysInv(Next(ttl, s, step))
  {
    hide SysInv, Next;
    match step
    case ReadRefresh(_, _) => ReadRefreshKeeps(ttl, s, step);
    case CommitRefresh(_, _) => CommitRefreshKeeps(ttl, s, step);
    case FailRefresh => FailRefreshKeeps(ttl, s, step);
    case ServeLogin(_, _, _, _, _, _, _) => ServeLoginKeeps(ttl, s, step);
    case ReadLogout(_, _, _) => LogoutKeeps(ttl, s, step);
    case CommitLogout(_) => LogoutKeeps(ttl, s, step);
    case FailLogout(_) => LogoutKeeps(ttl, s, step);
    case Elsewhere(_) => ElsewhereKeeps(ttl, s, step);
    case _ => LocalKeeps(ttl, s, step);
  }

  // --- What a call achieves ---

  // While a refresh is under way every further call joins it.
  lemma SingleFlight(ttl: nat, s: System)
    ensures Enabled(ttl, s, CallRefresh)
    ensures !s.flight.Idle? ==> Next(ttl, s, CallRefresh) == s
    ensures s.flight.Idle? ==> Next(ttl, s, CallRefresh) == s.(flight := Sent(s.cookie))
  {
  }

  // What the server does with the browser's token is what it does with it for anyone, and the answer's
  // token becomes the cookie when it is delivered.
  lemma RefreshSteps(ttl: nat, s: System, tx: nat, now: Time, next: Id, hash: TokenHash, clears: bool)
    requires s.flight == Sent(s.cookie) && s.cookie.Some? && Enabled(ttl, s, ReadRefresh(tx, now))
    ensures var read := Server.Next(ttl, s.server, Server.ReadRefresh(tx, s.cookie.value, now)).value;
            var s1 := Next(ttl, s, ReadRefresh(tx, now));
            && s1.server == read.state
            && (read.answer.Some? ==> s1.flight == Answered(None))
            && (read.answer.None? && Enabled(ttl, s1, CommitRefresh(next, hash)) ==>
                  var done := Server.Next(ttl, s1.server, Server.Commit(tx, next, hash)).value;
                  var s2 := Next(ttl, s1, CommitRefresh(next, hash));
                  && s2.server == done.state && Enabled(ttl, s2, DeliverRefresh(clears))
                  && var s3 := Next(ttl, s2, DeliverRefresh(clears));
                     && s3.flight.Idle? && s3.server == done.state
                     && s3.cookie == if GrantedCookie(done.answer).Some? then GrantedCookie(done.answer)
                                     else if clears then None else s.cookie)
  {
    hide Server.Next, Unanswered;
  }

  // A granted login's token becomes the cookie when it is delivered.
  lemma LoginSteps(ttl: nat, s: System, i: nat, user: Id, amr: seq<string>, sid: Id, tokenId: Id, hash: TokenHash, now: Time)
    requires i !in s.requests
    requires var op := Issue(user, amr, sid, tokenId, hash, now); Server.Next(ttl, s.server, Server.Whole(op)).Some?
    ensures var done := Server.Next(ttl, s.server, Server.Whole(Issue(user, amr, sid, tokenId, hash, now))).value;
            var serve := ServeLogin(i, user, amr, sid, tokenId, hash, now);
            && Enabled(ttl, s, SendLogin(i)) && Enabled(ttl, Next(ttl, s, SendLogin(i)), serve)
            && var s2 := Next(ttl, Next(ttl, s, SendLogin(i)), serve);
               && s2.server == done.state && Enabled(ttl, s2, DeliverLogin(i))
               && var s3 := Next(ttl, s2, DeliverLogin(i));
                  && s3.server == done.state && i !in s3.requests
                  && s3.cookie == if GrantedCookie(done.answer).Some? then GrantedCookie(done.answer) else s.cookie
  {
    hide Server.Next;
  }

  // A logout presents the cookie of the moment it was sent, and its answer may delete the cookie.
  lemma LogoutSteps(ttl: nat, s: System, i: nat, tx: nat, now: Time, clears: bool)
    requires i !in s.requests && s.cookie.Some?
    requires Server.Next(ttl, s.server, Server.ReadLogout(tx, s.cookie.value, now)).Some?
    ensures var read := Server.Next(ttl, s.server, Server.ReadLogout(tx, s.cookie.value, now)).value;
            && Enabled(ttl, s, SendLogout(i)) && Enabled(ttl, Next(ttl, s, SendLogout(i)), ReadLogout(i, tx, now))
            && var s2 := Next(ttl, Next(ttl, s, SendLogout(i)), ReadLogout(i, tx, now));
               && s2.server == read.state
               && (read.answer.None? && Enabled(ttl, s2, CommitLogout(i)) ==>
                     var done := Server.Next(ttl, s2.server, Server.Commit(tx, 0, 0)).value;
                     var s3 := Next(ttl, s2, CommitLogout(i));
                     && s3.server == done.state && Enabled(ttl, s3, DeliverLogout(i, clears))
                     && var s4 := Next(ttl, s3, DeliverLogout(i, clears));
                        s4.server == done.state && i !in s4.requests && s4.cookie == if clears then None else s.cookie)
  {
    hide Server.Next;
  }

  // --- What revokes a session for reuse ---

  ghost predicate ForReuse(t: Tables, sid: Id) { sid in t.sessions && t.sessions[sid].reason == Some(RefreshReuseDetected) }

  // The server step commits a revocation of the session for reuse.
  predicate ReuseCommits(s: Server.State, st: Server.Step, sid: Id) {
    Server.RevocationCommits(s, st, sid) && s.open[st.tx].plan.reason == RefreshReuseDetected
  }

  // That is the only way its reason becomes reuse.
  lemma ReasonStep(ttl: nat, s: Server.State, st: Server.Step, sid: Id)
    requires Server.Inv(s) && Server.Next(ttl, s, st).Some? && sid in s.tables.sessions
    ensures var t' := Server.Next(ttl, s, st).value.state.tables;
            sid in t'.sessions && (ReuseCommits(s, st, sid) ==> ForReuse(t', sid))
            && (ForReuse(t', sid) && !ForReuse(s.tables, sid) ==> ReuseCommits(s, st, sid))
  {
    hide ForReuse, Server.Inv, Server.LockedByOther, Server.Access, Server.LiveSession, Server.PlanOf, RefreshTokens.Apply,
         Server.CommitRevocation, Server.CommitRotation;
    if st.Whole? { Server.WholeLeavesSessions(ttl, s.tables, st.op, sid); SameSession(s.tables, RefreshTokens.Apply(ttl, s.tables, st.op).0, sid); }
    else if st.Commit? {
      var x := s.open[st.tx];
      RevocationReason(s.tables, s.tables.tokens[x.tokenId].sessionId, x.now, if x.plan.Revocation? then x.plan.reason else UserLogout, sid);
      RotationReason(ttl, s.tables, x, st.tokenId, st.hash, sid);
    }
  }

  lemma SameSession(t: Tables, t': Tables, sid: Id)
    requires sid in t.sessions && sid in t'.sessions && t'.sessions[sid] == t.sessions[sid]
    ensures ForReuse(t', sid) == ForReuse(t, sid)
  {
  }

  lemma RevocationReason(t: Tables, of: Id, now: Time, why: Reason, sid: Id)
    requires sid in t.sessions
    ensures var t' := Server.CommitRevocation(t, of, now, why);
            sid in t'.sessions && (ForReuse(t', sid) <==> if of == sid then why == RefreshReuseDetected else ForReuse(t, sid))
  {
  }

  lemma RotationReason(ttl: nat, t: Tables, x: Server.Tx, next: Id, hash: TokenHash, sid: Id)
    requires sid in t.sessions && x.tokenId in t.tokens
    ensures var t' := Server.CommitRotation(ttl, t, x, next, hash);
            sid in t'.sessions && (ForReuse(t', sid) <==> ForReuse(t, sid))
  {
  }

  // Which step of the system is such a commit: the browser's own, of a token whose rotation went unanswered.
  lemma ReuseStep(ttl: nat, s: System, step: Step, sid: Id)
    requires SysInv(s) && Enabled(ttl, s, step) && sid in s.own.sessions
    ensures (Asks(s, step).Some? && ReuseCommits(s.server, Asks(s, step).value, sid)) <==>
            step.CommitRefresh? && s.flight.Served? && SessionOf(s.server.tables, s.flight.token) == Some(sid) && s.flight.token in s.own.unanswered
  {
    hide Held, Known, Server.Inv, Server.Next;
    if Asks(s, step).Some? && Asks(s, step).value.Commit? && Asks(s, step).value.tx in s.server.open {
      var tx := Asks(s, step).value.tx;
      SessionOfTx(s, tx);
      assert Server.SessionAt(s.server, tx) == Some(sid) ==> OwnSession(s, tx);
    }
    if s.flight.Served? { FlightOk(s); SessionOfTx(s, s.flight.tx); }
  }

  // --- Runs ---

  ghost predicate Execution(ttl: nat, states: seq<System>, steps: seq<Step>) {
    && |states| == |steps| + 1
    && Server.Inv(states[0].server) && states[0].server.open == map[]
    && states[0].cookie.None? && states[0].flight.Idle? && states[0].requests == map[] && states[0].own == Own({}, {})
    && forall k :: 0 <= k < |steps| ==> Enabled(ttl, states[k], steps[k]) && states[k + 1] == Next(ttl, states[k], steps[k])
  }

  lemma {:induction false} ReachableInv(ttl: nat, states: seq<System>, steps: seq<Step>, k: nat)
    requires Execution(ttl, states, steps) && k < |states|
    ensures SysInv(states[k])
    decreases k
  {
    hide SysInv, Enabled, Next;
    if k == 0 {
      StartInv(states[0]);
    } else {
      ReachableInv(ttl, states, steps, k - 1);
      InvNext(ttl, states[k - 1], steps[k - 1]);
      assert states[k - 1 + 1] == Next(ttl, states[k - 1], steps[k - 1]);
    }
  }

  lemma StartInv(s: System)
    requires Server.Inv(s.server) && s.server.open == map[]
    requires s.cookie.None? && s.flight.Idle? && s.requests == map[] && s.own == Own({}, {})
    ensures SysInv(s)
  {
    hide Server.Inv;
  }

  // The step commits the rotation of token h for this browser although the user has no membership.
  ghost predicate RotatedInVain(s: System, step: Step, h: TokenHash) {
    step.CommitRefresh? && s.flight.Served? && s.flight.token == h && Unanswered(s.server, s.flight.tx, step.tokenId, step.hash)
  }

  ghost predicate RotatedInVainBefore(states: seq<System>, steps: seq<Step>, k: nat, h: TokenHash)
    requires k <= |steps| < |states|
  {
    exists j: nat :: j < k && RotatedInVain(states[j], steps[j], h)
  }

  lemma HistoryStep(ttl: nat, s: System, step: Step, h: TokenHash)
    requires Enabled(ttl, s, step)
    ensures h in Next(ttl, s, step).own.unanswered <==> h in s.own.unanswered || RotatedInVain(s, step, h)
  {
    hide Unanswered, Server.Next;
  }

  lemma {:induction false} HistoryMeans(ttl: nat, states: seq<System>, steps: seq<Step>, k: nat, h: TokenHash)
    requires Execution(ttl, states, steps) && k < |states|
    ensures h in states[k].own.unanswered <==> RotatedInVainBefore(states, steps, k, h)
    decreases k
  {
    hide Enabled, Next, RotatedInVain;
    if k > 0 {
      HistoryMeans(ttl, states, steps, k - 1, h);
      HistoryStep(ttl, states[k - 1], steps[k - 1], h);
      assert states[k - 1 + 1] == Next(ttl, states[k - 1], steps[k - 1]);
      assert RotatedInVainBefore(states, steps, k, h) <==>
             RotatedInVainBefore(states, steps, k - 1, h) || RotatedInVain(states[k - 1], steps[k - 1], h);
    }
  }

  // The step commits the browser's refresh of session `sid` with a token that an earlier commit rotated
  // while the user had no membership. The session was live when the server read it.
  ghost predicate RepeatsRotationInVain(states: seq<System>, steps: seq<Step>, k: nat, sid: Id)
    requires k < |steps| < |states|
  {
    && steps[k].CommitRefresh? && states[k].flight.Served?
    && SessionOf(states[k].server.tables, states[k].flight.token) == Some(sid)
    && RotatedInVainBefore(states, steps, k, states[k].flight.token)
  }

  // Main result: in any interleaving of this browser's refreshes, logins and logouts with the server's
  // transactions and with other clients, a step revokes one of its sessions for reuse if and only if it
  // repeats a rotation made in vain.
  lemma RevokedForReuseIff(ttl: nat, states: seq<System>, steps: seq<Step>, k: nat, sid: Id)
    requires Execution(ttl, states, steps) && k < |steps| && sid in states[k].own.sessions
    ensures sid in states[k].server.tables.sessions
    ensures RepeatsRotationInVain(states, steps, k, sid) ==> ForReuse(states[k + 1].server.tables, sid)
    ensures !ForReuse(states[k].server.tables, sid) ==>
              (ForReuse(states[k + 1].server.tables, sid) <==> RepeatsRotationInVain(states, steps, k, sid))
  {
    hide SysInv, Enabled, Next, ForReuse, RotatedInVainBefore, SessionOf, Server.Next, ReuseCommits;
    var s, step := states[k], steps[k];
    ReachableInv(ttl, states, steps, k);
    KnownSid(s, sid);
    ReuseStep(ttl, s, step, sid);
    if s.flight.Served? { HistoryMeans(ttl, states, steps, k, s.flight.token); }
    ServerAsked(ttl, s, step);
    if Asks(s, step).Some? { ReasonStep(ttl, s.server, Asks(s, step).value, sid); }
  }

  lemma KnownSid(s: System, sid: Id)
    requires SysInv(s) && sid in s.own.sessions
    ensures Server.Inv(s.server) && sid in s.server.tables.sessions
  {
    hide Server.Inv, Held, TxsRight;
  }

  // The server moves by what it is asked, and not at all otherwise.
  lemma ServerAsked(ttl: nat, s: System, step: Step)
    requires Enabled(ttl, s, step)
    ensures Asks(s, step).Some? ==>
              && Server.Next(ttl, s.server, Asks(s, step).value).Some?
              && Next(ttl, s, step).server == Server.Next(ttl, s.server, Asks(s, step).value).value.state
    ensures Asks(s, step).None? ==> Next(ttl, s, step).server == s.server
  {
    hide Server.Next, Unanswered;
  }

  // The user has a membership when the refresh of this browser is committed.
  ghost predicate MemberAtCommit(s: System, step: Step) {
    step.CommitRefresh? && s.flight.Served? && s.flight.tx in s.server.open ==>
      s.server.open[s.flight.tx].session.userId in s.server.tables.tenants
  }

  // Main result: so no session of this browser is revoked for reuse as long as its users have their
  // memberships whenever a refresh is committed.
  lemma {:induction false} NeverRevokedForReuse(ttl: nat, states: seq<System>, steps: seq<Step>, k: nat, sid: Id)
    requires Execution(ttl, states, steps) && k < |states| && sid in states[k].own.sessions
    requires forall j :: 0 <= j < |steps| ==> MemberAtCommit(states[j], steps[j])
    ensures sid in states[k].server.tables.sessions && !ForReuse(states[k].server.tables, sid)
    decreases k
  {
    hide SysInv, Enabled, Next, ForReuse, SessionOf, MemberAtCommit, RotatedInVainBefore;
    ReachableInv(ttl, states, steps, k);
    KnownSid(states[k], sid);
    assert k > 0;
    var s, step := states[k - 1], steps[k - 1];
    assert Enabled(ttl, s, step) && states[k - 1 + 1] == Next(ttl, s, step);
    if sid in s.own.sessions {
      NeverRevokedForReuse(ttl, states, steps, k - 1, sid);
      RevokedForReuseIff(ttl, states, steps, k - 1, sid);
      if s.flight.Served? { NoneInVain(states, steps, k - 1, s.flight.token); }
    } else {
      ReachableInv(ttl, states, steps, k - 1);
      OpenedByLogin(ttl, s, step, sid);
    }
  }

  lemma NoneInVain(states: seq<System>, steps: seq<Step>, k: nat, h: TokenHash)
    requires k <= |steps| < |states|
    requires forall j :: 0 <= j < |steps| ==> MemberAtCommit(states[j], steps[j])
    ensures !RotatedInVainBefore(states, steps, k, h)
  {
    forall j: nat | j < k ensures !RotatedInVain(states[j], steps[j], h) { assert MemberAtCommit(states[j], steps[j]); }
    hide RotatedInVain;
  }

  lemma OpenedByLogin(ttl: nat, s: System, step: Step, sid: Id)
    requires SysInv(s) && Enabled(ttl, s, step) && sid !in s.own.sessions && sid in Next(ttl, s, step).own.sessions
    ensures !ForReuse(Next(ttl, s, step).server.tables, sid)
  {
    hide SysInv, Unanswered, Server.Next, Server.Inv, RefreshTokens.Inv, RefreshTokens.Apply;
    Parts(s);
    assert step.ServeLogin?;
    Server.TablesOk(s.server);
    IssueIs(ttl, s.server, Asks(s, step).value.op);
    LoginEffect(ttl, s.server.tables, Asks(s, step).value.op, s.own);
  }

  // A rotation for a user without membership answers with an error but is committed: presenting the
  // same token again is then taken for reuse.
  lemma UndeliveredRotation(ttl: nat, t: Tables, h: TokenHash, first: Op, second: Op)
    requires Indexed(t) && h in t.byHash && first.Refresh? && second.Refresh? && first.presented == second.presented == h
    requires var x := t.tokens[t.byHash[h]];
             && x.usedAt.None? && x.revokedAt.None? && x.expiresAt > first.now
             && t.sessions[x.sessionId].revokedAt.None? && t.sessions[x.sessionId].userId !in t.tenants
    requires first.tokenId !in t.tokens && first.hash !in t.byHash
    ensures var sid := t.tokens[t.byHash[h]].sessionId;
            var (t1, r1) := RefreshTokens.Apply(ttl, t, first);
            var t2 := RefreshTokens.Apply(ttl, t1, second).0;
            r1 == AuthenticationError && ForReuse(t2, sid)
  {
  }

  // So the memberships are needed: log in, lose the membership, refresh twice, every answer delivered.
  const LOST_MEMBERSHIP: seq<Step> :=
    [Elsewhere(Server.Whole(Join(1, 7))), SendLogin(0), ServeLogin(0, 1, ["pwd"], 10, 20, 30, 0), DeliverLogin(0),
     Elsewhere(Server.Whole(Leave(1))), CallRefresh, ReadRefresh(5, 1), CommitRefresh(21, 31), DeliverRefresh(false), CallRefresh,
     ReadRefresh(6, 2), CommitRefresh(22, 32)]

  const START := System(Server.START, None, Idle, map[], Own({}, {}))

  // The system after the login was delivered and the membership lost ...
  const MEMBERSHIP_LOST: System :=
    System(Server.State(Tables(map[10 := Session(1, None, None, 0, ["pwd"])], map[20 := Token(10, 30, 100, None, None, None)],
                               map[30 := 20], map[]), map[]),
           Some(30), Idle, map[], Own({10}, {}))

  // ... and after the refresh that was answered with an error.
  const ROTATED_IN_VAIN: System :=
    System(Server.State(Tables(map[10 := Session(1, None, None, 1, ["pwd"])],
                               map[20 := Token(10, 30, 100, Some(1), None, Some(21)), 21 := Token(10, 31, 101, None, None, None)],
                               map[30 := 20, 31 := 21], map[]), map[]),
           Some(30), Idle, map[], Own({10}, {30}))

  lemma UpToLostMembership() returns (states: seq<System>)
    ensures |states| == 6 && states[0] == START && states[5] == MEMBERSHIP_LOST
    ensures forall k :: 0 <= k < 5 ==>
              Enabled(100, states[k], LOST_MEMBERSHIP[k]) && states[k + 1] == Next(100, states[k], LOST_MEMBERSHIP[k])
  {
    var joined := Server.State(RefreshTokens.EMPTY.(tenants := map[1 := 7]), map[]);
    var loggedIn := Server.State(MEMBERSHIP_LOST.server.tables.(tenants := map[1 := 7]), map[]);
    var s1 := START.(server := joined);
    var s2 := s1.(requests := map[0 := LoginSent]);
    var s3 := System(loggedIn, None, Idle, map[0 := LoginAnswered(Some(30))], Own({10}, {}));
    var s4 := System(loggedIn, Some(30), Idle, map[], Own({10}, {}));
    JoinAndSend(s1, s2);
    LogIn(s2, s3);
    DeliverAndLeave(s3, s4);
    hide Next, Enabled;
    states := [START, s1, s2, s3, s4, MEMBERSHIP_LOST];
  }

  lemma JoinAndSend(s1: System, s2: System)
    requires s1 == START.(server := Server.State(RefreshTokens.EMPTY.(tenants := map[1 := 7]), map[]))
    requires s2 == s1.(requests := map[0 := LoginSent])
    ensures Enabled(100, START, LOST_MEMBERSHIP[0]) && s1 == Next(100, START, LOST_MEMBERSHIP[0])
    ensures Enabled(100, s1, LOST_MEMBERSHIP[1]) && s2 == Next(100, s1, LOST_MEMBERSHIP[1])
  {
  }

  lemma LogIn(s2: System, s3: System)
    requires s2 == System(Server.State(RefreshTokens.EMPTY.(tenants := map[1 := 7]), map[]), None, Idle, map[0 := LoginSent], Own({}, {}))
    requires s3 == System(Server.State(MEMBERSHIP_LOST.server.tables.(tenants := map[1 := 7]), map[]), None, Idle,
                          map[0 := LoginAnswered(Some(30))], Own({10}, {}))
    ensures Enabled(100, s2, LOST_MEMBERSHIP[2]) && s3 == Next(100, s2, LOST_MEMBERSHIP[2])
  {
    assert s2.own.sessions + {10} == {10};
    assert s2.requests[0 := LoginAnswered(Some(30))] == s3.requests;
  }

  lemma DeliverAndLeave(s3: System, s4: System)
    requires s3 == System(Server.State(MEMBERSHIP_LOST.server.tables.(tenants := map[1 := 7]), map[]), None, Idle,
                          map[0 := LoginAnswered(Some(30))], Own({10}, {}))
    requires s4 == s3.(cookie := Some(30), requests := map[])
    ensures Enabled(100, s3, LOST_MEMBERSHIP[3]) && s4 == Next(100, s3, LOST_MEMBERSHIP[3])
    ensures Enabled(100, s4, LOST_MEMBERSHIP[4]) && MEMBERSHIP_LOST == Next(100, s4, LOST_MEMBERSHIP[4])
  {
    assert s3.requests - {0} == map[];
    assert s4.server.tables.tenants - {1} == map[];
  }

  // A refresh of the token, sent and read.
  function RefreshRead(s: System, tx: nat, x: Server.Tx): System {
    s.(server := s.server.(open := map[tx := x]), flight := Served(tx, 30))
  }

  lemma RefreshedOnce() returns (states: seq<System>)
    ensures |states| == 5 && states[0] == MEMBERSHIP_LOST && states[4] == ROTATED_IN_VAIN
    ensures forall k :: 0 <= k < 4 ==>
              Enabled(100, states[k], LOST_MEMBERSHIP[5 + k]) && states[k + 1] == Next(100, states[k], LOST_MEMBERSHIP[5 + k])
  {
    var s := MEMBERSHIP_LOST;
    var s1 := s.(flight := Sent(Some(30)));
    var s2 := RefreshRead(s, 5, Server.Tx(20, true, s.server.tables.sessions[10], 1, Server.Rotation));
    var s3 := ROTATED_IN_VAIN.(flight := Answered(None));
    FirstRead(s1, s2);
    FirstCommit(s2, s3);
    states := [s, s1, s2, s3, ROTATED_IN_VAIN];
    hide Server.Next;
  }

  lemma FirstRead(s1: System, s2: System)
    requires s1 == MEMBERSHIP_LOST.(flight := Sent(Some(30)))
    requires s2 == RefreshRead(MEMBERSHIP_LOST, 5, Server.Tx(20, true, MEMBERSHIP_LOST.server.tables.sessions[10], 1, Server.Rotation))
    ensures Enabled(100, s1, LOST_MEMBERSHIP[6]) && s2 == Next(100, s1, LOST_MEMBERSHIP[6])
  {
    assert !Server.LockedByOther(s1.server, 20, 5);
    assert s1.server.open[5 := s2.server.open[5]] == s2.server.open;
  }

  lemma FirstCommit(s2: System, s3: System)
    requires s2 == RefreshRead(MEMBERSHIP_LOST, 5, Server.Tx(20, true, MEMBERSHIP_LOST.server.tables.sessions[10], 1, Server.Rotation))
    requires s3 == ROTATED_IN_VAIN.(flight := Answered(None))
    ensures Enabled(100, s2, LOST_MEMBERSHIP[7]) && s3 == Next(100, s2, LOST_MEMBERSHIP[7])
  {
    assert s2.server.open - {5} == map[];
    var t := Server.CommitRotation(100, s2.server.tables, s2.server.open[5], 21, 31);
    assert t.sessions == ROTATED_IN_VAIN.server.tables.sessions;
    assert t.tokens == ROTATED_IN_VAIN.server.tables.tokens;
    assert t.byHash == ROTATED_IN_VAIN.server.tables.byHash;
    assert s2.own.unanswered + {30} == {30};
  }

  lemma RefreshedAgain() returns (states: seq<System>)
    ensures |states| == 4 && states[0] == ROTATED_IN_VAIN
    ensures forall k :: 0 <= k < 3 ==>
              Enabled(100, states[k], LOST_MEMBERSHIP[9 + k]) && states[k + 1] == Next(100, states[k], LOST_MEMBERSHIP[9 + k])
    ensures 10 in states[3].own.sessions && ForReuse(states[3].server.tables, 10)
  {
    var s := ROTATED_IN_VAIN;
    var s1 := s.(flight := Sent(Some(30)));
    var s2 := RefreshRead(s, 6, Server.Tx(20, true, s.server.tables.sessions[10], 2, Server.Revocation(RefreshReuseDetected)));
    SecondRead(s1, s2);
    SecondCommit(s2);
    states := [s, s1, s2, Next(100, s2, LOST_MEMBERSHIP[11])];
    hide Server.Next;
  }

  lemma SecondRead(s1: System, s2: System)
    requires s1 == ROTATED_IN_VAIN.(flight := Sent(Some(30)))
    requires s2 == RefreshRead(ROTATED_IN_VAIN, 6, Server.Tx(20, true, ROTATED_IN_VAIN.server.tables.sessions[10], 2,
                                                             Server.Revocation(RefreshReuseDetected)))
    ensures Enabled(100, s1, LOST_MEMBERSHIP[10]) && s2 == Next(100, s1, LOST_MEMBERSHIP[10])
  {
    assert !Server.LockedByOther(s1.server, 20, 6);
    assert s1.server.open[6 := s2.server.open[6]] == s2.server.open;
  }

  lemma SecondCommit(s2: System)
    requires s2 == RefreshRead(ROTATED_IN_VAIN, 6, Server.Tx(20, true, ROTATED_IN_VAIN.server.tables.sessions[10], 2,
                                                             Server.Revocation(RefreshReuseDetected)))
    ensures Enabled(100, s2, LOST_MEMBERSHIP[11])
    ensures var s3 := Next(100, s2, LOST_MEMBERSHIP[11]); 10 in s3.own.sessions && ForReuse(s3.server.tables, 10)
  {
  }

  lemma LostMembershipLooksLikeReuse() returns (states: seq<System>)
    ensures Execution(100, states, LOST_MEMBERSHIP)
    ensures 10 in states[12].own.sessions && ForReuse(states[12].server.tables, 10)
  {
    hide Next, Enabled;
    var first := UpToLostMembership();
    var second := RefreshedOnce();
    var third := RefreshedAgain();
    states := first + second[1..] + third[1..];
    Server.StartInv();
    forall k | 0 <= k < 12
      ensures Enabled(100, states[k], LOST_MEMBERSHIP[k]) && states[k + 1] == Next(100, states[k], LOST_MEMBERSHIP[k])
    {
      if k >= 9 {
        assert states[k] == third[k - 9] && states[k + 1] == third[k - 8] && LOST_MEMBERSHIP[9 + (k - 9)] == LOST_MEMBERSHIP[k];
      } else if k >= 5 {
        assert states[k] == second[k - 5] && states[k + 1] == second[k - 4] && LOST_MEMBERSHIP[5 + (k - 5)] == LOST_MEMBERSHIP[k];
      }
    }
  }
}
