// Refresh and logout as the transactions they are: each reads, and commits later what it decided on.
// Refresh locks the row of the presented token; nobody locks the session row, and every statement sees
// what is committed when it runs.
module RefreshRaces {
  import opened Wrappers
  import opened RefreshTokens

  datatype Plan = Rotation | Revocation(reason: Reason)

  // A transaction between its reads and its commit: the presented token's row, locked by a refresh,
  // and the session row it saw live.
  datatype Tx = Tx(tokenId: Id, locks: bool, session: Session, now: Time, plan: Plan)

  // Committed tables, and the open transactions by number.
  datatype State = State(tables: Tables, open: map<nat, Tx>)

  datatype Step =
    | ReadRefresh(tx: nat, presented: TokenHash, now: Time)
    | ReadLogout(tx: nat, presented: TokenHash, now: Time)
    | Commit(tx: nat, tokenId: Id, hash: TokenHash)
    | Abort(tx: nat)
    | Whole(op: Op)   // login, joining and leaving an organization, each in one step

  // The state after a step and the answer, if the step gives one.
  datatype Effect = Effect(state: State, answer: Option<Result>)

  ghost predicate LockedByOther(s: State, id: Id, i: nat) {
    exists j :: j in s.open && j != i && s.open[j].locks && s.open[j].tokenId == id
  }

  function LiveSession(t: Tables, presented: TokenHash): Option<Session> {
    if presented !in t.byHash || t.byHash[presented] !in t.tokens then None
    else
      var sid := t.tokens[t.byHash[presented]].sessionId;
      if sid in t.sessions && t.sessions[sid].revokedAt.None? then Some(t.sessions[sid]) else None
  }

  function PlanOf(stored: Token, now: Time): Plan {
    if stored.usedAt.Some? || stored.revokedAt.Some? then Revocation(RefreshReuseDetected)
    else if stored.expiresAt <= now then Revocation(RefreshExpired)
    else Rotation
  }

  function Opened(s: State, i: nat, x: Tx): State { s.(open := s.open[i := x]) }

  function Closed(s: State, i: nat): State { s.(open := s.open - {i}) }

  // revoke: two columns of the row as it is by now.
  function CommitRevocation(t: Tables, sid: Id, now: Time, reason: Reason): Tables {
    if sid in t.sessions then t.(sessions := t.sessions[sid := Revoke(t.sessions[sid], now, reason)]) else t
  }

  // add, mark_used and touch.
  function CommitRotation(ttl: nat, t: Tables, x: Tx, next: Id, hash: TokenHash): Tables
    requires x.tokenId in t.tokens
  {
    var sid := t.tokens[x.tokenId].sessionId;
    t.(tokens := t.tokens[next := Token(sid, hash, x.now + ttl, None, None, None)]
                         [x.tokenId := t.tokens[x.tokenId].(usedAt := Some(x.now), replacedBy := Some(next))],
       byHash := t.byHash[hash := next],
       sessions := if sid in t.sessions then t.sessions[sid := t.sessions[sid].(lastUsedAt := x.now)] else t.sessions)
  }

  function Access(t: Tables, x: Tx, hash: TokenHash): Result
    requires x.tokenId in t.tokens
  {
    if x.session.userId !in t.tenants then AuthenticationError
    else Granted(AccessToken(x.session.userId, t.tenants[x.session.userId], t.tokens[x.tokenId].sessionId, x.session.amr), hash)
  }

  // None when the step is blocked or not possible.
  ghost function Next(ttl: nat, s: State, step: Step): Option<Effect> {
    var t := s.tables;
    match step
    case ReadRefresh(i, presented, now) =>
      if i in s.open then None
      else if presented in t.byHash && LockedByOther(s, t.byHash[presented], i) then None
      else if LiveSession(t, presented).None? then Some(Effect(s, Some(AuthenticationError)))
      else
        var id := t.byHash[presented];
        Some(Effect(Opened(s, i, Tx(id, true, LiveSession(t, presented).value, now, PlanOf(t.tokens[id], now))), None))
    case ReadLogout(i, presented, now) =>
      if i in s.open then None
      else if LiveSession(t, presented).None? then Some(Effect(s, Some(Completed)))
      else Some(Effect(Opened(s, i, Tx(t.byHash[presented], false, LiveSession(t, presented).value, now, Revocation(UserLogout))), None))
    case Commit(i, next, hash) =>
      if i !in s.open || s.open[i].tokenId !in t.tokens then None
      else
        var x := s.open[i];
        if x.plan.Revocation? then
          Some(Effect(Closed(s, i).(tables := CommitRevocation(t, t.tokens[x.tokenId].sessionId, x.now, x.plan.reason)),
                      Some(if x.plan.reason == UserLogout then Completed else AuthenticationError)))
        else if next in t.tokens || hash in t.byHash then Some(Effect(Closed(s, i), Some(IntegrityError)))
        else Some(Effect(Closed(s, i).(tables := CommitRotation(ttl, t, x, next, hash)), Some(Access(t, x, hash))))
    case Abort(i) => if i in s.open then Some(Effect(Closed(s, i), None)) else None
    case Whole(op) =>
      if op.Refresh? || op.Logout? then None
      else Some(Effect(s.(tables := RefreshTokens.Apply(ttl, t, op).0), Some(RefreshTokens.Apply(ttl, t, op).1)))
  }

  const START := State(RefreshTokens.EMPTY, map[])

  // Any number of clients, interleaved step by step.
  ghost predicate Execution(ttl: nat, states: seq<State>, steps: seq<Step>) {
    && |states| == |steps| + 1
    && states[0] == START
    && forall k :: 0 <= k < |steps| ==> Next(ttl, states[k], steps[k]).Some? && Next(ttl, states[k], steps[k]).value.state == states[k + 1]
  }

  ghost function AnswerOf(ttl: nat, states: seq<State>, steps: seq<Step>, k: nat): Option<Result>
    requires Execution(ttl, states, steps) && k < |steps|
  {
    Next(ttl, states[k], steps[k]).value.answer
  }

  // --- Invariant ---

  // The session of an open transaction keeps its user and methods, and a locked token its row.
  ghost predicate TxOk(t: Tables, x: Tx) {
    && x.tokenId in t.tokens
    && (var sid := t.tokens[x.tokenId].sessionId;
        sid in t.sessions && t.sessions[sid].userId == x.session.userId && t.sessions[sid].amr == x.session.amr)
    && (x.plan.Rotation? ==> x.locks && t.tokens[x.tokenId].usedAt.None?)
  }

  ghost predicate Exclusive(open: map<nat, Tx>) {
    forall i, j :: i in open && j in open && i != j && open[i].locks && open[j].locks ==> open[i].tokenId != open[j].tokenId
  }

  ghost predicate Inv(s: State) {
    && RefreshTokens.Inv(s.tables)
    && (forall i :: i in s.open ==> TxOk(s.tables, s.open[i]))
    && Exclusive(s.open)
  }

  // What every step keeps: sessions with user and methods, revoked ones revoked, tokens with hash and
  // session, used ones used.
  ghost predicate Kept(a: Tables, b: Tables) {
    && (forall sid :: sid in a.sessions ==>
          && sid in b.sessions && b.sessions[sid].userId == a.sessions[sid].userId && b.sessions[sid].amr == a.sessions[sid].amr
          && (a.sessions[sid].revokedAt.Some? ==> b.sessions[sid].revokedAt.Some?))
    && TokensKept(a, b)
  }

  lemma KeptTransitive(a: Tables, b: Tables, c: Tables)
    requires Kept(a, b) && Kept(b, c)
    ensures Kept(a, c)
  {
  }

  lemma KeptSelf(a: Tables)
    ensures Kept(a, a)
  {
  }

  lemma PreservedIsKept(a: Tables, b: Tables)
    requires Preserves(a, b)
    ensures Kept(a, b)
  {
    hide TokensKept, RevokedGainNothing;
  }

  lemma RevocationKeeps(t: Tables, sid: Id, now: Time, reason: Reason)
    ensures Kept(t, CommitRevocation(t, sid, now, reason))
    ensures RefreshTokens.Inv(t) ==> RefreshTokens.Inv(CommitRevocation(t, sid, now, reason))
  {
    var t' := CommitRevocation(t, sid, now, reason);
    if RefreshTokens.Inv(t) && sid in t.sessions {
      assert Marks(t, t', sid);
      MarkKeepsInv(t, t', sid);
    }
  }

  lemma RotationKeeps(ttl: nat, t: Tables, x: Tx, next: Id, hash: TokenHash)
    requires RefreshTokens.Inv(t) && TxOk(t, x) && x.plan.Rotation? && next !in t.tokens && hash !in t.byHash
    ensures var t' := CommitRotation(ttl, t, x, next, hash);
            && RefreshTokens.Inv(t') && Kept(t, t')
            && forall id :: id in t.tokens && id != x.tokenId ==> t'.tokens[id] == t.tokens[id]
  {
    hide RefreshTokens.Inv, TokensKept;
    var t' := CommitRotation(ttl, t, x, next, hash);
    var new' := Token(t.tokens[x.tokenId].sessionId, hash, x.now + ttl, None, None, None);
    assert Links(t, t', x.tokenId, next, new', x.now);
    LinkKeepsInv(t, t', x.tokenId, next, new', x.now);
    LinkKeepsTokens(t, t', x.tokenId, next, new', x.now);
  }

  lemma WholeKeeps(ttl: nat, t: Tables, op: Op)
    requires RefreshTokens.Inv(t) && !op.Refresh? && !op.Logout?
    ensures var t' := RefreshTokens.Apply(ttl, t, op).0;
            && RefreshTokens.Inv(t') && Kept(t, t')
            && forall id :: id in t.tokens ==> t'.tokens[id] == t.tokens[id]
  {
    hide RefreshTokens.Inv, RefreshTokens.Apply, Preserves, Indexed, Kept;
    RefreshTokens.InvStep(ttl, t, op);
    InvIndexed(t);
    StepPreserves(ttl, t, op);
    PreservedIsKept(t, RefreshTokens.Apply(ttl, t, op).0);
    KeptTokens(t, RefreshTokens.Apply(ttl, t, op).0);
    WholeLeavesTokens(ttl, t, op);
  }

  lemma KeptTokens(a: Tables, b: Tables)
    requires Kept(a, b)
    ensures a.tokens.Keys <= b.tokens.Keys
  {
  }

  lemma WholeLeavesTokens(ttl: nat, t: Tables, op: Op)
    requires !op.Refresh? && !op.Logout?
    ensures var t' := RefreshTokens.Apply(ttl, t, op).0; forall id :: id in t.tokens ==> id in t'.tokens && t'.tokens[id] == t.tokens[id]
  {
  }

  // An open transaction stays right while others commit, as nobody else touches a token it locks.
  lemma TxStays(a: Tables, b: Tables, x: Tx)
    requires TxOk(a, x) && Kept(a, b)
    requires x.locks ==> x.tokenId in b.tokens && b.tokens[x.tokenId].usedAt == a.tokens[x.tokenId].usedAt
    ensures TxOk(b, x)
  {
  }

  lemma AllStay(s: State, b: Tables, open: map<nat, Tx>)
    requires Inv(s) && Kept(s.tables, b) && RefreshTokens.Inv(b)
    requires open.Keys <= s.open.Keys && forall i :: i in open ==> open[i] == s.open[i]
    requires forall i :: i in open && open[i].locks && open[i].tokenId in s.tables.tokens ==>
               open[i].tokenId in b.tokens && b.tokens[open[i].tokenId].usedAt == s.tables.tokens[open[i].tokenId].usedAt
    ensures Inv(State(b, open))
  {
    hide RefreshTokens.Inv, Kept, TxOk;
    forall i | i in open ensures TxOk(b, open[i]) {
      assert TxOk(s.tables, s.open[i]);
      TokenKnown(s.tables, s.open[i]);
      TxStays(s.tables, b, open[i]);
    }
  }

  lemma OpenStep(s: State, i: nat, x: Tx)
    requires Inv(s) && TxOk(s.tables, x) && (x.locks ==> !LockedByOther(s, x.tokenId, i)) && i !in s.open
    ensures Inv(Opened(s, i, x))
  {
    hide RefreshTokens.Inv, TxOk;
  }

  lemma ReadOk(t: Tables, presented: TokenHash, now: Time)
    requires RefreshTokens.Inv(t) && LiveSession(t, presented).Some?
    ensures TxOk(t, Tx(t.byHash[presented], true, LiveSession(t, presented).value, now, PlanOf(t.tokens[t.byHash[presented]], now)))
    ensures TxOk(t, Tx(t.byHash[presented], false, LiveSession(t, presented).value, now, Revocation(UserLogout)))
  {
    hide HasChain;
  }

  lemma RevocationStep(s: State, i: nat)
    requires Inv(s) && i in s.open && s.open[i].plan.Revocation? && s.open[i].tokenId in s.tables.tokens
    ensures var x := s.open[i];
            Inv(Closed(s, i).(tables := CommitRevocation(s.tables, s.tables.tokens[x.tokenId].sessionId, x.now, x.plan.reason)))
  {
    hide RefreshTokens.Inv, TxOk, Kept, Exclusive;
    var x, sid := s.open[i], s.tables.tokens[s.open[i].tokenId].sessionId;
    var b := CommitRevocation(s.tables, sid, x.now, x.plan.reason);
    RevocationKeeps(s.tables, sid, x.now, x.plan.reason);
    assert b.tokens == s.tables.tokens;
    forall j | j in s.open ensures s.open[j].tokenId in s.tables.tokens { TokenKnown(s.tables, s.open[j]); }
    AllStay(s, b, Closed(s, i).open);
  }

  lemma TokenKnown(t: Tables, x: Tx)
    requires TxOk(t, x)
    ensures x.tokenId in t.tokens && t.tokens[x.tokenId].sessionId in t.sessions
  {
  }

  lemma RotationStep(ttl: nat, s: State, i: nat, next: Id, hash: TokenHash)
    requires Inv(s) && i in s.open && s.open[i].plan.Rotation? && next !in s.tables.tokens && hash !in s.tables.byHash
    requires s.open[i].tokenId in s.tables.tokens
    ensures Inv(Closed(s, i).(tables := CommitRotation(ttl, s.tables, s.open[i], next, hash)))
  {
    var x := s.open[i];
    assert TxOk(s.tables, x) && x.locks;
    RotationKeeps(ttl, s.tables, x, next, hash);
    hide RefreshTokens.Inv, Kept;
    var b := CommitRotation(ttl, s.tables, x, next, hash);
    forall j | j in s.open && j != i && s.open[j].locks
      ensures s.open[j].tokenId in b.tokens && b.tokens[s.open[j].tokenId].usedAt == s.tables.tokens[s.open[j].tokenId].usedAt
    {
      TokenKnown(s.tables, s.open[j]);
      assert s.open[j].tokenId != x.tokenId;
    }
    hide CommitRotation, TxOk;
    AllStay(s, b, Closed(s, i).open);
  }

  lemma WholeStep(ttl: nat, s: State, op: Op)
    requires Inv(s) && !op.Refresh? && !op.Logout?
    ensures Inv(s.(tables := RefreshTokens.Apply(ttl, s.tables, op).0))
  {
    hide RefreshTokens.Inv, Kept, Exclusive, TxOk, RefreshTokens.Apply;
    var b := RefreshTokens.Apply(ttl, s.tables, op).0;
    WholeKeeps(ttl, s.tables, op);
    forall j | j in s.open && s.open[j].tokenId in s.tables.tokens
      ensures s.open[j].tokenId in b.tokens && b.tokens[s.open[j].tokenId].usedAt == s.tables.tokens[s.open[j].tokenId].usedAt
    {
      SameToken(s.tables, b, s.open[j].tokenId);
    }
    AllStay(s, b, s.open);
  }

  lemma SameToken(a: Tables, b: Tables, id: Id)
    requires Kept(a, b) && id in a.tokens
    ensures id in b.tokens
  {
  }

  lemma InvStep(ttl: nat, s: State, step: Step)
    requires Inv(s) && Next(ttl, s, step).Some?
    ensures Inv(Next(ttl, s, step).value.state)
  {
    hide Inv, LockedByOther, CommitRevocation, CommitRotation, Access, RefreshTokens.Apply, LiveSession, PlanOf, Opened, Closed;
    TablesOk(s);
    match step
    case ReadRefresh(i, presented, now) =>
      if LiveSession(s.tables, presented).Some? {
        KnownToken(s.tables, presented);
        ReadOk(s.tables, presented, now);
        var id := s.tables.byHash[presented];
        OpenStep(s, i, Tx(id, true, LiveSession(s.tables, presented).value, now, PlanOf(s.tables.tokens[id], now)));
      }
    case ReadLogout(i, presented, now) =>
      if LiveSession(s.tables, presented).Some? {
        KnownToken(s.tables, presented);
        ReadOk(s.tables, presented, now);
        OpenStep(s, i, Tx(s.tables.byHash[presented], false, LiveSession(s.tables, presented).value, now, Revocation(UserLogout)));
      }
    case Commit(i, next, hash) =>
      CloseStep(s, i);
      if s.open[i].plan.Revocation? { RevocationStep(s, i); }
      else if next !in s.tables.tokens && hash !in s.tables.byHash { RotationStep(ttl, s, i, next, hash); }
    case Abort(i) => CloseStep(s, i);
    case Whole(op) => WholeStep(ttl, s, op);
  }

  lemma TablesOk(s: State)
    requires Inv(s)
    ensures RefreshTokens.Inv(s.tables)
  {
  }

  lemma KnownToken(t: Tables, presented: TokenHash)
    requires LiveSession(t, presented).Some?
    ensures presented in t.byHash && t.byHash[presented] in t.tokens
    ensures var sid := t.tokens[t.byHash[presented]].sessionId;
            sid in t.sessions && t.sessions[sid] == LiveSession(t, presented).value && t.sessions[sid].revokedAt.None?
  {
  }

  lemma CloseStep(s: State, i: nat)
    requires Inv(s)
    ensures Inv(Closed(s, i))
  {
    hide RefreshTokens.Inv, TxOk;
  }

  // --- Runs ---

  // Main result: one chain of tokens per session in every state of every interleaving.
  lemma {:induction false} ReachableInv(ttl: nat, states: seq<State>, steps: seq<Step>, k: nat)
    requires Execution(ttl, states, steps) && k < |states|
    ensures Inv(states[k])
    decreases k
  {
    hide Inv, Next;
    if k == 0 {
      StartInv();
    } else {
      ReachableInv(ttl, states, steps, k - 1);
      InvStep(ttl, states[k - 1], steps[k - 1]);
      assert Next(ttl, states[k - 1], steps[k - 1]).value.state == states[k - 1 + 1];
    }
  }

  lemma StartInv()
    ensures Inv(START)
  {
  }

  // What one step does to the sessions and tokens that exist.
  lemma StepKeeps(ttl: nat, s: State, step: Step)
    requires Inv(s) && Next(ttl, s, step).Some?
    ensures Kept(s.tables, Next(ttl, s, step).value.state.tables)
  {
    hide Inv, Kept, LockedByOther, CommitRevocation, CommitRotation, Access, RefreshTokens.Apply, LiveSession, PlanOf;
    KeptSelf(s.tables);
    TablesOk(s);
    match step
    case Commit(i, next, hash) =>
      var x := s.open[i];
      OpenOk(s, i);
      if x.plan.Revocation? { RevocationKeeps(s.tables, s.tables.tokens[x.tokenId].sessionId, x.now, x.plan.reason); }
      else if next !in s.tables.tokens && hash !in s.tables.byHash { RotationKeeps(ttl, s.tables, x, next, hash); }
    case Whole(op) => WholeKeeps(ttl, s.tables, op);
    case _ =>
  }

  lemma OpenOk(s: State, i: nat)
    requires Inv(s) && i in s.open
    ensures TxOk(s.tables, s.open[i])
  {
  }

  lemma {:induction false} RunKeeps(ttl: nat, states: seq<State>, steps: seq<Step>, i: nat, j: nat)
    requires Execution(ttl, states, steps) && i <= j < |states|
    ensures Kept(states[i].tables, states[j].tables)
    decreases j - i
  {
    hide Kept, Next, Inv;
    if i == j {
      KeptSelf(states[i].tables);
    } else {
      RunKeeps(ttl, states, steps, i, j - 1);
      ReachableInv(ttl, states, steps, j - 1);
      StepKeeps(ttl, states[j - 1], steps[j - 1]);
      assert Next(ttl, states[j - 1], steps[j - 1]).value.state == states[j - 1 + 1];
      KeptTransitive(states[i].tables, states[j - 1].tables, states[j].tables);
    }
  }

  // Step k commits the rotation of the token.
  ghost predicate RotatesAt(ttl: nat, states: seq<State>, steps: seq<Step>, k: nat, id: Id)
    requires Execution(ttl, states, steps) && k < |steps|
  {
    && steps[k].Commit? && steps[k].tx in states[k].open
    && states[k].open[steps[k].tx].plan.Rotation? && states[k].open[steps[k].tx].tokenId == id
    && AnswerOf(ttl, states, steps, k) != Some(IntegrityError)
  }

  lemma GrantRotates(ttl: nat, states: seq<State>, steps: seq<Step>, k: nat)
    requires Execution(ttl, states, steps) && k < |steps| && !steps[k].Whole?
    requires AnswerOf(ttl, states, steps, k).Some? && AnswerOf(ttl, states, steps, k).value.Granted?
    ensures steps[k].Commit? && steps[k].tx in states[k].open
    ensures RotatesAt(ttl, states, steps, k, states[k].open[steps[k].tx].tokenId)
    ensures var s := states[k];
            var id := s.open[steps[k].tx].tokenId;
            id in s.tables.tokens && AnswerOf(ttl, states, steps, k).value.access.sessionId == s.tables.tokens[id].sessionId
  {
    assert Next(ttl, states[k], steps[k]).Some?;
    hide LockedByOther, CommitRotation, CommitRevocation;
  }

  // Main result: whatever runs beside it, a token is rotated at most once, granted or not.
  lemma TokenRotatesOnce(ttl: nat, states: seq<State>, steps: seq<Step>, i: nat, j: nat, id: Id)
    requires Execution(ttl, states, steps) && i < j < |steps|
    requires RotatesAt(ttl, states, steps, i, id)
    ensures !RotatesAt(ttl, states, steps, j, id)
  {
    ReachableInv(ttl, states, steps, i);
    ReachableInv(ttl, states, steps, j);
    RunKeeps(ttl, states, steps, i + 1, j);
    assert Next(ttl, states[i], steps[i]).value.state == states[i + 1];
    OpenOk(states[i], steps[i].tx);
    RotationSpends(ttl, states[i], steps[i]);
    if steps[j].Commit? && steps[j].tx in states[j].open { OpenOk(states[j], steps[j].tx); }
    hide Inv, Next, Execution;
  }

  lemma RotationSpends(ttl: nat, s: State, step: Step)
    requires step.Commit? && step.tx in s.open && s.open[step.tx].plan.Rotation? && Next(ttl, s, step).Some?
    requires Next(ttl, s, step).value.answer != Some(IntegrityError)
    ensures var t, id := Next(ttl, s, step).value.state.tables, s.open[step.tx].tokenId;
            id in t.tokens && t.tokens[id].usedAt.Some?
  {
  }

  // --- What a missing lock on the session row lets through ---

  function SessionAt(s: State, i: nat): Option<Id> {
    if i in s.open && s.open[i].tokenId in s.tables.tokens then Some(s.tables.tokens[s.open[i].tokenId].sessionId) else None
  }

  // The step commits a revocation of the session.
  predicate RevocationCommits(s: State, step: Step, sid: Id) {
    step.Commit? && step.tx in s.open && s.open[step.tx].plan.Revocation? && SessionAt(s, step.tx) == Some(sid)
  }

  ghost predicate RevokedBetween(states: seq<State>, steps: seq<Step>, i: nat, j: nat, sid: Id)
    requires |states| == |steps| + 1 && j <= |steps|
  {
    exists k: nat :: i <= k < j && RevocationCommits(states[k], steps[k], sid)
  }

  // Transaction `tx`, open in state j, read at step i.
  ghost predicate ReadAt(states: seq<State>, steps: seq<Step>, i: nat, j: nat, tx: nat)
    requires |states| == |steps| + 1 && j <= |steps|
  {
    && i < j && tx !in states[i].open && tx in states[j].open
    && ((steps[i].ReadRefresh? && steps[i].tx == tx) || (steps[i].ReadLogout? && steps[i].tx == tx))
    && forall k :: i < k <= j ==> tx in states[k].open && states[k].open[tx] == states[j].open[tx]
  }

  lemma OpenedByRead(ttl: nat, s: State, step: Step, tx: nat)
    requires Next(ttl, s, step).Some? && tx in Next(ttl, s, step).value.state.open
    ensures tx in s.open ==> Next(ttl, s, step).value.state.open[tx] == s.open[tx]
    ensures tx !in s.open ==> (step.ReadRefresh? || step.ReadLogout?) && step.tx == tx
  {
    hide LockedByOther, CommitRotation, CommitRevocation, Access, RefreshTokens.Apply, LiveSession, PlanOf;
  }

  lemma {:induction false} EveryTxWasRead(ttl: nat, states: seq<State>, steps: seq<Step>, j: nat, tx: nat) returns (i: nat)
    requires Execution(ttl, states, steps) && j < |states| && tx in states[j].open
    ensures ReadAt(states, steps, i, j, tx)
    decreases j
  {
    assert j > 0;
    hide Next;
    assert Next(ttl, states[j - 1], steps[j - 1]).value.state == states[j - 1 + 1];
    OpenedByRead(ttl, states[j - 1], steps[j - 1], tx);
    if tx in states[j - 1].open {
      i := EveryTxWasRead(ttl, states, steps, j - 1, tx);
    } else {
      i := j - 1;
    }
  }

  // One step's effect on the revocation of a session.
  lemma RevokedStep(ttl: nat, s: State, step: Step, sid: Id)
    requires Inv(s) && Next(ttl, s, step).Some? && sid in s.tables.sessions
    ensures var t := Next(ttl, s, step).value.state.tables;
            sid in t.sessions &&
            (t.sessions[sid].revokedAt.Some? <==> s.tables.sessions[sid].revokedAt.Some? || RevocationCommits(s, step, sid))
  {
    hide LockedByOther, Access, LiveSession, PlanOf, RefreshTokens.Apply, RefreshTokens.Inv;
    if step.Whole? { WholeLeavesSessions(ttl, s.tables, step.op, sid); }
  }

  lemma WholeLeavesSessions(ttl: nat, t: Tables, op: Op, sid: Id)
    requires !op.Refresh? && !op.Logout? && sid in t.sessions
    ensures var t' := RefreshTokens.Apply(ttl, t, op).0; sid in t'.sessions && t'.sessions[sid] == t.sessions[sid]
  {
  }

  // The step that opened a transaction saw its session live.
  lemma ReadLive(ttl: nat, s: State, step: Step)
    requires Next(ttl, s, step).Some? && (step.ReadRefresh? || step.ReadLogout?)
    requires step.tx !in s.open && step.tx in Next(ttl, s, step).value.state.open
    ensures var s' := Next(ttl, s, step).value.state;
            && s'.tables == s.tables && SessionAt(s', step.tx).Some?
            && var sid := SessionAt(s', step.tx).value;
               sid in s.tables.sessions && s.tables.sessions[sid].revokedAt.None?
  {
    hide LockedByOther, PlanOf;
  }

  lemma {:induction false} RevokedSinceRead(ttl: nat, states: seq<State>, steps: seq<Step>, i: nat, j: nat, tx: nat)
    requires Execution(ttl, states, steps) && j < |states| && ReadAt(states, steps, i, j, tx)
    ensures SessionAt(states[j], tx).Some?
    ensures var sid := SessionAt(states[j], tx).value;
            && sid in states[j].tables.sessions
            && (states[j].tables.sessions[sid].revokedAt.Some? <==> RevokedBetween(states, steps, i + 1, j, sid))
    decreases j
  {
    hide Next, Inv, SessionAt, RevocationCommits;
    ReachableInv(ttl, states, steps, j - 1);
    assert Next(ttl, states[j - 1], steps[j - 1]).value.state == states[j - 1 + 1];
    if j == i + 1 {
      ReadLive(ttl, states[i], steps[i]);
    } else {
      RevokedSinceRead(ttl, states, steps, i, j - 1, tx);
      var sid := SessionAt(states[j - 1], tx).value;
      RevokedStep(ttl, states[j - 1], steps[j - 1], sid);
      SameSession(ttl, states[j - 1], steps[j - 1], tx);
      assert RevokedBetween(states, steps, i + 1, j, sid) <==>
             RevokedBetween(states, steps, i + 1, j - 1, sid) || RevocationCommits(states[j - 1], steps[j - 1], sid);
    }
  }

  lemma SameSession(ttl: nat, s: State, step: Step, tx: nat)
    requires Inv(s) && Next(ttl, s, step).Some? && tx in s.open
    requires tx in Next(ttl, s, step).value.state.open
    ensures SessionAt(Next(ttl, s, step).value.state, tx) == SessionAt(s, tx)
  {
    StepKeeps(ttl, s, step);
    OpenOk(s, tx);
    OpenedByRead(ttl, s, step, tx);
    hide Next, Inv;
  }

  // Main result: a token is added to a revoked session if and only if a revocation was committed
  // between the refresh's reading of the session and its commit.
  lemma RevokedGainsIff(ttl: nat, states: seq<State>, steps: seq<Step>, j: nat, id: Id) returns (i: nat)
    requires Execution(ttl, states, steps) && j < |steps|
    requires id !in states[j].tables.tokens && id in states[j + 1].tables.tokens
    requires states[j + 1].tables.tokens[id].sessionId in states[j].tables.sessions
    ensures steps[j].Commit? && ReadAt(states, steps, i, j, steps[j].tx) && steps[i].ReadRefresh?
    ensures var sid := states[j + 1].tables.tokens[id].sessionId;
            states[j].tables.sessions[sid].revokedAt.Some? <==> RevokedBetween(states, steps, i + 1, j, sid)
  {
    ReachableInv(ttl, states, steps, j);
    assert Next(ttl, states[j], steps[j]).value.state == states[j + 1];
    AddsByRotation(ttl, states[j], steps[j], id);
    i := EveryTxWasRead(ttl, states, steps, j, steps[j].tx);
    RevokedSinceRead(ttl, states, steps, i, j, steps[j].tx);
    assert Next(ttl, states[i], steps[i]).value.state == states[i + 1];
    RotationWasRefresh(ttl, states[i], steps[i]);
    hide Next, Inv, RevokedBetween;
  }

  lemma AddsByRotation(ttl: nat, s: State, step: Step, id: Id)
    requires Inv(s) && Next(ttl, s, step).Some? && id !in s.tables.tokens && id in Next(ttl, s, step).value.state.tables.tokens
    requires Next(ttl, s, step).value.state.tables.tokens[id].sessionId in s.tables.sessions
    ensures step.Commit? && step.tx in s.open && s.open[step.tx].plan.Rotation?
    ensures SessionAt(s, step.tx) == Some(Next(ttl, s, step).value.state.tables.tokens[id].sessionId)
  {
    hide LockedByOther, Access, LiveSession, PlanOf, RefreshTokens.Inv;
  }

  lemma RotationWasRefresh(ttl: nat, s: State, step: Step)
    requires Next(ttl, s, step).Some? && (step.ReadRefresh? || step.ReadLogout?)
    requires step.tx in Next(ttl, s, step).value.state.open && Next(ttl, s, step).value.state.open[step.tx].plan.Rotation?
    ensures step.ReadRefresh?
  {
    hide LockedByOther;
  }

  // Main result: the time and reason of a revocation are overwritten by a second one if and only if
  // another was committed between that one's reading of the session and its commit.
  lemma RevocationOverwrittenIff(ttl: nat, states: seq<State>, steps: seq<Step>, j: nat, sid: Id) returns (i: nat)
    requires Execution(ttl, states, steps) && j < |steps| && RevocationCommits(states[j], steps[j], sid)
    ensures ReadAt(states, steps, i, j, steps[j].tx) && sid in states[j].tables.sessions
    ensures states[j].tables.sessions[sid].revokedAt.Some? <==> RevokedBetween(states, steps, i + 1, j, sid)
  {
    i := EveryTxWasRead(ttl, states, steps, j, steps[j].tx);
    RevokedSinceRead(ttl, states, steps, i, j, steps[j].tx);
  }

  // Main result: after a revocation only a refresh that had read the session before it is granted.
  lemma OnlyInFlightGranted(ttl: nat, states: seq<State>, steps: seq<Step>, r: nat, j: nat, sid: Id)
    requires Execution(ttl, states, steps) && r <= j < |steps| && !steps[j].Whole?
    requires sid in states[r].tables.sessions && states[r].tables.sessions[sid].revokedAt.Some?
    requires AnswerOf(ttl, states, steps, j).Some? && AnswerOf(ttl, states, steps, j).value.Granted?
    requires AnswerOf(ttl, states, steps, j).value.access.sessionId == sid
    ensures steps[j].Commit? && steps[j].tx in states[r].open && steps[j].tx in states[j].open
    ensures states[r].open[steps[j].tx] == states[j].open[steps[j].tx]
  {
    GrantRotates(ttl, states, steps, j);
    var tx := steps[j].tx;
    var i := EveryTxWasRead(ttl, states, steps, j, tx);
    hide Next, Inv;
    if i >= r {
      ReachableInv(ttl, states, steps, i);
      RunKeeps(ttl, states, steps, r, i);
      RunKeeps(ttl, states, steps, i + 1, j);
      assert Next(ttl, states[i], steps[i]).value.state == states[i + 1];
      ReadLive(ttl, states[i], steps[i]);
    }
  }

  // With presented token, session and membership in order, a logout that reads and commits while the
  // refresh is under way: the session is revoked, has one token more, and an access token is granted.
  lemma LogoutDuringRefresh(ttl: nat, s: State, a: nat, b: nat, presented: TokenHash, now: Time, later: Time, next: Id, hash: TokenHash)
    requires a != b && a !in s.open && b !in s.open && LiveSession(s.tables, presented).Some?
    requires !LockedByOther(s, s.tables.byHash[presented], a)
    requires PlanOf(s.tables.tokens[s.tables.byHash[presented]], now) == Rotation
    requires LiveSession(s.tables, presented).value.userId in s.tables.tenants
    requires next !in s.tables.tokens && hash !in s.tables.byHash
    ensures var t, id := s.tables, s.tables.byHash[presented];
            var sid := t.tokens[id].sessionId;
            var e := Steps(ttl, s, [ReadRefresh(a, presented, now), ReadLogout(b, presented, later), Commit(b, 0, 0), Commit(a, next, hash)]);
            && e.Some? && e.value.answer.Some? && e.value.answer.value.Granted? && e.value.answer.value.access.sessionId == sid
            && var t' := e.value.state.tables;
               && sid in t'.sessions && t'.sessions[sid].revokedAt == Some(later) && t'.sessions[sid].reason == Some(UserLogout)
               && next in t'.tokens && t'.tokens[next].sessionId == sid && t'.tokens[next].usedAt.None?
  {
    hide LockedByOther;
    var steps := [ReadRefresh(a, presented, now), ReadLogout(b, presented, later), Commit(b, 0, 0), Commit(a, next, hash)];
    var s1 := Next(ttl, s, steps[0]).value.state;
    var s2 := Next(ttl, s1, steps[1]).value.state;
    var s3 := Next(ttl, s2, steps[2]).value.state;
    FourSteps(ttl, s, s1, s2, s3, steps);
    hide Steps;
  }

  // Two logouts of a live session that overlap: the second commit overwrites the first one's time.
  lemma OverlappingLogouts(ttl: nat, s: State, a: nat, b: nat, presented: TokenHash, earlier: Time, later: Time)
    requires a != b && a !in s.open && b !in s.open && LiveSession(s.tables, presented).Some?
    ensures var sid := s.tables.tokens[s.tables.byHash[presented]].sessionId;
            var steps := [ReadLogout(a, presented, earlier), ReadLogout(b, presented, later), Commit(a, 0, 0), Commit(b, 0, 0)];
            var first, both := Steps(ttl, s, steps[..3]), Steps(ttl, s, steps);
            && first.Some? && sid in first.value.state.tables.sessions
            && first.value.state.tables.sessions[sid].revokedAt == Some(earlier)
            && both.Some? && sid in both.value.state.tables.sessions
            && both.value.state.tables.sessions[sid].revokedAt == Some(later)
  {
    var steps := [ReadLogout(a, presented, earlier), ReadLogout(b, presented, later), Commit(a, 0, 0), Commit(b, 0, 0)];
    var s1 := Next(ttl, s, steps[0]).value.state;
    var s2 := Next(ttl, s1, steps[1]).value.state;
    var s3 := Next(ttl, s2, steps[2]).value.state;
    FourSteps(ttl, s, s1, s2, s3, steps);
    ThreeSteps(ttl, s, s1, s2, steps[..3]);
    hide Steps;
  }

  lemma ThreeSteps(ttl: nat, s: State, s1: State, s2: State, steps: seq<Step>)
    requires |steps| == 3
    requires Next(ttl, s, steps[0]).Some? && Next(ttl, s, steps[0]).value.state == s1
    requires Next(ttl, s1, steps[1]).Some? && Next(ttl, s1, steps[1]).value.state == s2
    ensures Steps(ttl, s, steps) == Next(ttl, s2, steps[2])
  {
    hide Next;
    assert steps[1..] == [steps[1], steps[2]] && steps[1..][1..] == [steps[2]];
    assert Steps(ttl, s2, [steps[2]]) == Next(ttl, s2, steps[2]) by { if Next(ttl, s2, steps[2]).None? { } }
  }

  // The last effect of a list of steps.
  ghost function Steps(ttl: nat, s: State, steps: seq<Step>): Option<Effect>
    decreases |steps|
  {
    if steps == [] then Some(Effect(s, None))
    else
      match Next(ttl, s, steps[0])
      case None => None
      case Some(e) => if |steps| == 1 then Some(e) else Steps(ttl, e.state, steps[1..])
  }

  lemma FourSteps(ttl: nat, s: State, s1: State, s2: State, s3: State, steps: seq<Step>)
    requires |steps| == 4
    requires Next(ttl, s, steps[0]).Some? && Next(ttl, s, steps[0]).value.state == s1
    requires Next(ttl, s1, steps[1]).Some? && Next(ttl, s1, steps[1]).value.state == s2
    requires Next(ttl, s2, steps[2]).Some? && Next(ttl, s2, steps[2]).value.state == s3
    ensures Steps(ttl, s, steps) == Next(ttl, s3, steps[3])
  {
    hide Next;
    assert steps[1..][1..] == [steps[2], steps[3]] && steps[1..] == [steps[1], steps[2], steps[3]];
    assert steps[1..][1..][1..] == [steps[3]];
    assert Steps(ttl, s3, [steps[3]]) == Next(ttl, s3, steps[3]) by { if Next(ttl, s3, steps[3]).None? { } }
    assert Steps(ttl, s2, [steps[2], steps[3]]) == Steps(ttl, s3, [steps[3]]);
  }

  // --- A use case that meets no other is the one step it was before ---

  // Reads, and commits unless the reads answered already.
  ghost function Alone(ttl: nat, s: State, read: Step, commit: Step): Option<Effect> {
    match Next(ttl, s, read)
    case None => None
    case Some(e) => if e.answer.Some? then Some(e) else Next(ttl, e.state, commit)
  }

  lemma AloneIsRefresh(ttl: nat, s: State, i: nat, presented: TokenHash, next: Id, hash: TokenHash, now: Time)
    requires i !in s.open && (presented in s.tables.byHash ==> !LockedByOther(s, s.tables.byHash[presented], i))
    ensures var (t, r) := RefreshTokens.Apply(ttl, s.tables, Refresh(presented, next, hash, now));
            Alone(ttl, s, ReadRefresh(i, presented, now), Commit(i, next, hash)) == Some(Effect(State(t, s.open), Some(r)))
  {
    hide LockedByOther;
    forall x { OpenedClosed(s, i, x); }
  }

  lemma AloneIsLogout(ttl: nat, s: State, i: nat, presented: TokenHash, now: Time)
    requires i !in s.open
    ensures var (t, r) := RefreshTokens.Apply(ttl, s.tables, Logout(presented, now));
            Alone(ttl, s, ReadLogout(i, presented, now), Commit(i, 0, 0)) == Some(Effect(State(t, s.open), Some(r)))
  {
    forall x { OpenedClosed(s, i, x); }
  }

  lemma OpenedClosed(s: State, i: nat, x: Tx)
    requires i !in s.open
    ensures Closed(Opened(s, i, x), i) == s
  {
    assert s.open[i := x] - {i} == s.open;
  }
}
