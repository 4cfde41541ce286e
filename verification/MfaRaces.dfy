// Confirming an enrollment and logging in with a recovery code as the transactions they are. A
// confirmation reads the pending record, later loads the record again and deletes the old codes, and
// writes only at its commit, since nothing is flushed before. A login locks the code's row.
module MfaRaces {
  import opened Wrappers
  import opened Sets
  import opened Mfa

  // The user's TOTP row by its primary key.
  datatype Row = Row(id: Id, confirmed: bool)
  datatype User = User(enabled: bool, row: Option<Row>)
  datatype Store = Store(users: map<Id, User>, codes: map<CodeHash, RecoveryCode>)

  datatype Tx =
    | Confirming(user: Id)
    | Purged(user: Id, row: Option<Id>, wasEnabled: bool, deleted: set<CodeHash>)
    | Redeeming(user: Id, code: CodeHash)

  // Committed rows, and the open transactions by number.
  datatype State = State(store: Store, open: map<nat, Tx>)

  datatype Step =
    | NewUser(user: Id)
    | Start(user: Id, row: Id)
    | DisableWhole(user: Id)
    | ReadPending(tx: nat, user: Id)
    | Purge(tx: nat)
    | CommitConfirm(tx: nat, hashes: CodeBatch)
    | Lock(tx: nat, user: Id, code: CodeHash)
    | CommitLogin(tx: nat)
    | Abort(tx: nat)

  const START := State(Store(map[], map[]), map[])

  function CodesHeld(s: Store, user: Id): set<CodeHash> { set h | h in s.codes && s.codes[h].user == user }

  function Locked(x: Tx): set<CodeHash> {
    match x
    case Confirming(_) => {}
    case Purged(_, _, _, deleted) => deleted
    case Redeeming(_, code) => {code}
  }

  // Another transaction holds one of the rows.
  ghost predicate Blocked(s: State, rows: set<CodeHash>) {
    exists i, h :: i in s.open && h in Locked(s.open[i]) && h in rows
  }

  function Without(codes: map<CodeHash, RecoveryCode>, deleted: set<CodeHash>): map<CodeHash, RecoveryCode> {
    map h | h in codes && h !in deleted :: codes[h]
  }

  // The row the confirmation loaded is there still; otherwise its UPDATE finds no row and it fails.
  predicate NotStale(s: Store, x: Tx)
    requires x.Purged? && x.user in s.users
  {
    x.row.Some? ==> s.users[x.user].row.Some? && s.users[x.user].row.value.id == x.row.value
  }

  predicate Commits(s: Store, x: Tx, hashes: CodeBatch) {
    x.Purged? && x.user in s.users && NotStale(s, x) && BatchFits(Without(s.codes, x.deleted), hashes)
  }

  // A column that already had its value when it was loaded is not written.
  function Confirmed(s: Store, x: Tx, hashes: CodeBatch): Store
    requires Commits(s, x, hashes)
  {
    var u := s.users[x.user];
    var row := if x.row.Some? then Some(u.row.value.(confirmed := true)) else u.row;
    Store(s.users[x.user := User(if x.wasEnabled then u.enabled else true, row)],
          AddCodes(Without(s.codes, x.deleted), x.user, hashes))
  }

  // The state after a step; None when it is blocked or not possible.
  ghost function Next(s: State, step: Step): Option<State> {
    var t := s.store;
    match step
    case NewUser(user) => if user in t.users then None else Some(s.(store := t.(users := t.users[user := User(false, None)])))
    case Start(user, row) =>
      if user !in t.users then None
      else Some(s.(store := t.(users := t.users[user := t.users[user].(row := Some(Row(row, false)))])))
    case DisableWhole(user) =>
      if user !in t.users || Blocked(s, CodesHeld(t, user)) then None
      else Some(s.(store := Store(t.users[user := User(false, None)], WithoutCodes(t.codes, user))))
    case ReadPending(i, user) =>
      if i in s.open || user !in t.users || t.users[user].row.None? || t.users[user].row.value.confirmed then None
      else Some(s.(open := s.open[i := Confirming(user)]))
    case Purge(i) =>
      if i !in s.open || !s.open[i].Confirming? || s.open[i].user !in t.users || Blocked(s, CodesHeld(t, s.open[i].user)) then None
      else
        var user := s.open[i].user;
        var row := if t.users[user].row.Some? then Some(t.users[user].row.value.id) else None;
        Some(s.(open := s.open[i := Purged(user, row, t.users[user].enabled, CodesHeld(t, user))]))
    case CommitConfirm(i, hashes) =>
      if i !in s.open || !s.open[i].Purged? then None
      else Some(State(if Commits(t, s.open[i], hashes) then Confirmed(t, s.open[i], hashes) else t, s.open - {i}))
    case Lock(i, user, code) =>
      if i in s.open || Blocked(s, {code}) || code !in t.codes || t.codes[code].user != user || t.codes[code].used then None
      else Some(s.(open := s.open[i := Redeeming(user, code)]))
    case CommitLogin(i) =>
      if i !in s.open || !s.open[i].Redeeming? || s.open[i].code !in t.codes then None
      else Some(State(t.(codes := t.codes[s.open[i].code := RecoveryCode(s.open[i].user, true)]), s.open - {i}))
    case Abort(i) => if i in s.open then Some(s.(open := s.open - {i})) else None
  }

  ghost predicate Execution(states: seq<State>, steps: seq<Step>) {
    && |states| == |steps| + 1
    && states[0] == START
    && forall k :: 0 <= k < |steps| ==> Next(states[k], steps[k]) == Some(states[k + 1])
  }

  // --- Locks ---

  ghost predicate LockOk(t: Store, x: Tx) {
    && (forall h :: h in Locked(x) ==> h in t.codes && t.codes[h].user == x.user)
    && (x.Redeeming? ==> !t.codes[x.code].used)
  }

  ghost predicate Disjoint(open: map<nat, Tx>) {
    forall i, j, h :: i in open && j in open && h in Locked(open[i]) && h in Locked(open[j]) ==> i == j
  }

  ghost predicate Inv(s: State) { (forall i :: i in s.open ==> LockOk(s.store, s.open[i])) && Disjoint(s.open) }

  // A step of one transaction leaves alone what the others have locked.
  lemma OthersKept(s: State, store: Store, open: map<nat, Tx>)
    requires Inv(s) && open.Keys <= s.open.Keys && forall i :: i in open ==> open[i] == s.open[i]
    requires forall i, h :: i in open && h in Locked(open[i]) && h in s.store.codes ==> h in store.codes && store.codes[h] == s.store.codes[h]
    ensures Inv(State(store, open))
  {
  }

  lemma Opens(s: State, i: nat, x: Tx)
    requires Inv(s) && LockOk(s.store, x) && !Blocked(s, Locked(x)) && (i in s.open ==> Locked(s.open[i]) == {})
    ensures Inv(s.(open := s.open[i := x]))
  {
    hide LockOk;
  }

  lemma CommitConfirmKeeps(s: State, i: nat, hashes: CodeBatch)
    requires Inv(s) && i in s.open && Commits(s.store, s.open[i], hashes)
    ensures Inv(State(Confirmed(s.store, s.open[i], hashes), s.open - {i}))
  {
    var store := Confirmed(s.store, s.open[i], hashes);
    forall j, h | j in s.open - {i} && h in Locked(s.open[j]) && h in s.store.codes
      ensures h in store.codes && store.codes[h] == s.store.codes[h]
    {
      assert h !in s.open[i].deleted;
      assert h in Without(s.store.codes, s.open[i].deleted);
      assert h !in hashes;
    }
    hide Confirmed, Commits;
    OthersKept(s, store, s.open - {i});
  }

  lemma InvStep(s: State, step: Step)
    requires Inv(s) && Next(s, step).Some?
    ensures Inv(Next(s, step).value)
  {
    hide Inv, Commits, Confirmed, LockOk;
    match step
    case NewUser(_) => SameCodes(s, Next(s, step).value);
    case Start(_, _) => SameCodes(s, Next(s, step).value);
    case Abort(i) => SameCodes(s, Next(s, step).value);
    case DisableWhole(user) => DisableKeeps(s, user);
    case ReadPending(i, user) => ReadKeeps(s, i, user);
    case Purge(i) => PurgeKeeps(s, i, Next(s, step).value.open[i]);
    case CommitConfirm(i, hashes) =>
      if Commits(s.store, s.open[i], hashes) { CommitConfirmKeeps(s, i, hashes); } else { SameCodes(s, Next(s, step).value); }
    case Lock(i, user, code) => LockKeeps(s, i, user, code);
    case CommitLogin(i) => LoginKeeps(s, i);
  }

  lemma SameCodes(s: State, s': State)
    requires Inv(s) && s'.store.codes == s.store.codes && s'.open.Keys <= s.open.Keys && forall i :: i in s'.open ==> s'.open[i] == s.open[i]
    ensures Inv(s')
  {
    OthersKept(s, s'.store, s'.open);
  }

  lemma DisableKeeps(s: State, user: Id)
    requires Inv(s) && !Blocked(s, CodesHeld(s.store, user))
    ensures Inv(s.(store := Store(s.store.users[user := User(false, None)], WithoutCodes(s.store.codes, user))))
  {
    var store := Store(s.store.users[user := User(false, None)], WithoutCodes(s.store.codes, user));
    forall i, h | i in s.open && h in Locked(s.open[i]) && h in s.store.codes ensures h in store.codes && store.codes[h] == s.store.codes[h] {
      assert h !in CodesHeld(s.store, user);
    }
    OthersKept(s, store, s.open);
  }

  lemma ReadKeeps(s: State, i: nat, user: Id)
    requires Inv(s) && i !in s.open
    ensures Inv(s.(open := s.open[i := Confirming(user)]))
  {
    Opens(s, i, Confirming(user));
  }

  lemma PurgeKeeps(s: State, i: nat, x: Tx)
    requires Inv(s) && i in s.open && s.open[i].Confirming? && x.Purged? && x.user == s.open[i].user && x.deleted == CodesHeld(s.store, x.user)
    requires !Blocked(s, CodesHeld(s.store, x.user))
    ensures Inv(s.(open := s.open[i := x]))
  {
    Opens(s, i, x);
  }

  lemma LockKeeps(s: State, i: nat, user: Id, code: CodeHash)
    requires Inv(s) && i !in s.open && !Blocked(s, {code}) && code in s.store.codes && s.store.codes[code] == RecoveryCode(user, false)
    ensures Inv(s.(open := s.open[i := Redeeming(user, code)]))
  {
    Opens(s, i, Redeeming(user, code));
  }

  lemma LoginKeeps(s: State, i: nat)
    requires Inv(s) && i in s.open && s.open[i].Redeeming? && s.open[i].code in s.store.codes
    ensures Inv(State(s.store.(codes := s.store.codes[s.open[i].code := RecoveryCode(s.open[i].user, true)]), s.open - {i}))
  {
    OthersKept(s, s.store.(codes := s.store.codes[s.open[i].code := RecoveryCode(s.open[i].user, true)]), s.open - {i});
  }

  lemma {:induction false} ReachableInv(states: seq<State>, steps: seq<Step>, k: nat)
    requires Execution(states, steps) && k < |states|
    ensures Inv(states[k])
    decreases k
  {
    hide Inv, Next;
    if k == 0 {
      StartInv();
    } else {
      ReachableInv(states, steps, k - 1);
      assert Next(states[k - 1], steps[k - 1]) == Some(states[k - 1 + 1]);
      InvStep(states[k - 1], steps[k - 1]);
    }
  }

  lemma StartInv()
    ensures Inv(START)
  {
  }

  // --- A recovery code is redeemed once ---

  predicate Redeems(s: State, step: Step, h: CodeHash) {
    step.CommitLogin? && step.tx in s.open && s.open[step.tx].Redeeming? && s.open[step.tx].code == h
  }

  predicate Issues(s: State, step: Step, h: CodeHash) {
    step.CommitConfirm? && step.tx in s.open && Commits(s.store, s.open[step.tx], step.hashes) && h in step.hashes
  }

  ghost predicate Spent(s: State, h: CodeHash) { h in s.store.codes ==> s.store.codes[h].used }

  lemma SpentStays(s: State, step: Step, h: CodeHash)
    requires Inv(s) && Next(s, step).Some? && Spent(s, h) && !Issues(s, step, h)
    ensures Spent(Next(s, step).value, h)
  {
    hide BatchFits, NotStale, Blocked, Inv;
  }

  lemma {:induction false} SpentUntilIssued(states: seq<State>, steps: seq<Step>, i: nat, j: nat, h: CodeHash)
    requires Execution(states, steps) && i <= j < |states| && Spent(states[i], h)
    requires forall k: nat :: i <= k < j ==> !Issues(states[k], steps[k], h)
    ensures Spent(states[j], h)
    decreases j - i
  {
    hide Next, Spent, Issues, Inv;
    if i < j {
      SpentUntilIssued(states, steps, i, j - 1, h);
      ReachableInv(states, steps, j - 1);
      assert Next(states[j - 1], steps[j - 1]) == Some(states[j - 1 + 1]);
      SpentStays(states[j - 1], steps[j - 1], h);
    }
  }

  lemma RedeemSpends(s: State, step: Step, h: CodeHash)
    requires Redeems(s, step, h) && Next(s, step).Some?
    ensures Spent(Next(s, step).value, h)
  {
  }

  lemma RedeemableUnspent(s: State, step: Step, h: CodeHash)
    requires Inv(s) && Redeems(s, step, h)
    ensures !Spent(s, h)
  {
    assert LockOk(s.store, s.open[step.tx]) && h in Locked(s.open[step.tx]);
  }

  // Main result: under the lock on the code's row, whatever runs beside it, a code is redeemed at most
  // once, unless a confirmation issues the same code again in between.
  lemma RedeemedOnce(states: seq<State>, steps: seq<Step>, i: nat, j: nat, h: CodeHash)
    requires Execution(states, steps) && i < j < |steps|
    requires Redeems(states[i], steps[i], h) && Redeems(states[j], steps[j], h)
    ensures exists k: nat :: i < k < j && Issues(states[k], steps[k], h)
  {
    hide Next, Spent, Issues, Inv, Redeems;
    ReachableInv(states, steps, j);
    assert Next(states[i], steps[i]) == Some(states[i + 1]);
    RedeemSpends(states[i], steps[i], h);
    RedeemableUnspent(states[j], steps[j], h);
    if forall k: nat :: i < k < j ==> !Issues(states[k], steps[k], h) {
      SpentUntilIssued(states, steps, i + 1, j, h);
    }
  }

  // --- What a confirmation leaves ---

  ghost predicate Bare(s: State, user: Id) { user in s.store.users && s.store.users[user].enabled && s.store.users[user].row.None? }

  // The step commits a confirmation that found no record when it loaded it again, and there is none now.
  ghost predicate ConfirmsNothing(s: State, step: Step, user: Id) {
    && step.CommitConfirm? && step.tx in s.open && Commits(s.store, s.open[step.tx], step.hashes)
    && s.open[step.tx].user == user && s.open[step.tx].row.None? && !s.open[step.tx].wasEnabled
    && s.store.users[user].row.None?
  }

  // Main result: a step leaves a user with MFA enabled and no TOTP record, who was not so before, if and
  // only if it commits a confirmation whose record was gone when it was loaded again, and still is.
  lemma EnabledWithoutRecordIff(s: State, step: Step, user: Id)
    requires Next(s, step).Some? && !Bare(s, user)
    ensures Bare(Next(s, step).value, user) <==> ConfirmsNothing(s, step, user)
  {
    hide BatchFits, Blocked;
  }

  // Step p of transaction `tx` loads the record again, and step i had read it.
  ghost predicate ReadThenPurged(states: seq<State>, steps: seq<Step>, i: nat, p: nat, j: nat, tx: nat)
    requires |states| == |steps| + 1 && j <= |steps|
  {
    && i < p < j && steps[i].ReadPending? && steps[i].tx == tx && steps[p].Purge? && steps[p].tx == tx
    && (forall k :: i < k <= p ==> tx in states[k].open && states[k].open[tx] == Confirming(steps[i].user))
    && tx in states[p + 1].open
    && (forall k :: p < k <= j ==> tx in states[k].open && states[k].open[tx] == states[p + 1].open[tx])
    && states[p + 1].open[tx].Purged? && states[p + 1].open[tx].user == steps[i].user
  }

  ghost predicate DisabledBetween(steps: seq<Step>, i: nat, p: nat, user: Id)
    requires p <= |steps|
  {
    exists k: nat :: i < k < p && steps[k] == DisableWhole(user)
  }

  lemma OnlyDisableRemoves(s: State, step: Step, user: Id)
    requires Next(s, step).Some? && user in s.store.users && s.store.users[user].row.Some?
    ensures user in Next(s, step).value.store.users
    ensures Next(s, step).value.store.users[user].row.None? <==> step == DisableWhole(user)
  {
    hide BatchFits, Blocked;
  }

  lemma {:induction false} RecordStays(states: seq<State>, steps: seq<Step>, i: nat, p: nat, user: Id)
    requires Execution(states, steps) && i < p < |states|
    requires user in states[i + 1].store.users && states[i + 1].store.users[user].row.Some? && !DisabledBetween(steps, i, p, user)
    ensures user in states[p].store.users && states[p].store.users[user].row.Some?
    decreases p
  {
    hide Next;
    if p > i + 1 {
      RecordStays(states, steps, i, p - 1, user);
      assert Next(states[p - 1], steps[p - 1]) == Some(states[p - 1 + 1]);
      OnlyDisableRemoves(states[p - 1], steps[p - 1], user);
    }
  }

  lemma PurgeLoads(s: State, step: Step)
    requires step.Purge? && Next(s, step).Some?
    ensures var x := Next(s, step).value.open[step.tx];
            && step.tx in s.open && x.Purged? && x.user == s.open[step.tx].user && x.user in s.store.users
            && x.row.Some? == s.store.users[x.user].row.Some? && x.deleted == CodesHeld(s.store, x.user)
  {
    hide Blocked;
  }

  lemma ReadSees(s: State, step: Step)
    requires step.ReadPending? && Next(s, step).Some?
    ensures step.user in s.store.users && s.store.users[step.user].row.Some? && Next(s, step).value.store == s.store
  {
  }

  // Main result: the record can only be gone because the user disabled MFA between the two readings.
  lemma GoneOnlyByDisable(states: seq<State>, steps: seq<Step>, j: nat, user: Id) returns (i: nat, p: nat)
    requires Execution(states, steps) && j < |steps| && ConfirmsNothing(states[j], steps[j], user)
    ensures ReadThenPurged(states, steps, i, p, j, steps[j].tx) && steps[i].user == user && DisabledBetween(steps, i, p, user)
  {
    PurgedOf(states[j], steps[j]);
    hide Next, DisabledBetween, Commits;
    i, p := EveryConfirmWasRead(states, steps, j, steps[j].tx);
    assert Next(states[i], steps[i]) == Some(states[i + 1]) && Next(states[p], steps[p]) == Some(states[p + 1]);
    ReadSees(states[i], steps[i]);
    PurgeLoads(states[p], steps[p]);
    if !DisabledBetween(steps, i, p, user) { RecordStays(states, steps, i, p, user); }
  }

  lemma PurgedOf(s: State, step: Step)
    requires step.CommitConfirm? && step.tx in s.open && Commits(s.store, s.open[step.tx], step.hashes)
    ensures s.open[step.tx].Purged?
  {
  }

  // What is left after a confirmation are its own ten codes and those that were not there when it deleted
  // the old ones.
  lemma CodesAfterConfirm(s: State, step: Step)
    requires Inv(s) && step.CommitConfirm? && Next(s, step).Some? && Commits(s.store, s.open[step.tx], step.hashes)
    ensures var x, t' := s.open[step.tx], Next(s, step).value.store;
            && CodesHeld(t', x.user) == Elements(step.hashes) + (CodesHeld(s.store, x.user) - x.deleted)
            && Elements(step.hashes) !! (CodesHeld(s.store, x.user) - x.deleted)
  {
    var x := s.open[step.tx];
    var rest := Without(s.store.codes, x.deleted);
    assert forall h :: h in step.hashes ==> h !in rest by {
      forall h | h in step.hashes ensures h !in rest { var k :| 0 <= k < |step.hashes| && step.hashes[k] == h; }
    }
  }

  // Main result: it leaves exactly ten codes if and only if every code the user has at its commit was
  // there, and deleted, when it purged.
  lemma TenCodesIff(s: State, step: Step)
    requires Inv(s) && step.CommitConfirm? && Next(s, step).Some? && Commits(s.store, s.open[step.tx], step.hashes)
    ensures var x := s.open[step.tx];
            |CodesHeld(Next(s, step).value.store, x.user)| == RECOVERY_CODES <==> CodesHeld(s.store, x.user) <= x.deleted
  {
    CodesAfterConfirm(s, step);
    hide *;
    DistinctBatch(s, step);
    DistinctCount(step.hashes);
    var x := s.open[step.tx];
    TenAndMore(Elements(step.hashes), CodesHeld(s.store, x.user), x.deleted);
  }

  lemma DistinctBatch(s: State, step: Step)
    requires step.CommitConfirm? && step.tx in s.open && Commits(s.store, s.open[step.tx], step.hashes)
    ensures s.open[step.tx].Purged? && Distinct(step.hashes) && |step.hashes| == RECOVERY_CODES
  {
  }

  lemma TenAndMore(ten: set<CodeHash>, held: set<CodeHash>, deleted: set<CodeHash>)
    requires ten !! (held - deleted)
    ensures |ten + (held - deleted)| == |ten| <==> held <= deleted
  {
    var extra := held - deleted;
    assert |ten + extra| == |ten| + |extra|;
    if held <= deleted { assert extra == {}; }
    if extra == {} {
      forall h | h in held ensures h in deleted { assert h !in extra; }
    }
  }

  ghost predicate ConfirmedBetween(states: seq<State>, steps: seq<Step>, p: nat, j: nat, user: Id)
    requires |states| == |steps| + 1 && j <= |steps|
  {
    exists k: nat :: p < k < j && steps[k].CommitConfirm? && steps[k].tx in states[k].open &&
      states[k].open[steps[k].tx].user == user && Commits(states[k].store, states[k].open[steps[k].tx], steps[k].hashes)
  }

  lemma OnlyConfirmAdds(s: State, step: Step, user: Id, h: CodeHash)
    requires Next(s, step).Some? && h !in CodesHeld(s.store, user) && h in CodesHeld(Next(s, step).value.store, user)
    requires Inv(s)
    ensures step.CommitConfirm? && step.tx in s.open && s.open[step.tx].user == user && Commits(s.store, s.open[step.tx], step.hashes)
  {
    assert forall i :: i in s.open && s.open[i].Redeeming? ==> s.open[i].code in Locked(s.open[i]) && LockOk(s.store, s.open[i]);
    hide BatchFits, NotStale, Blocked;
  }

  lemma {:induction false} NoCodesAdded(states: seq<State>, steps: seq<Step>, p: nat, j: nat, user: Id)
    requires Execution(states, steps) && p < j < |states| && !ConfirmedBetween(states, steps, p, j, user)
    ensures CodesHeld(states[j].store, user) <= CodesHeld(states[p + 1].store, user)
    decreases j
  {
    hide Next, Inv, Commits, CodesHeld;
    if j > p + 1 {
      NoCodesAdded(states, steps, p, j - 1, user);
      ReachableInv(states, steps, j - 1);
      assert Next(states[j - 1], steps[j - 1]) == Some(states[j - 1 + 1]);
      forall h | h in CodesHeld(states[j].store, user) ensures h in CodesHeld(states[j - 1].store, user) {
        if h !in CodesHeld(states[j - 1].store, user) { OnlyConfirmAdds(states[j - 1], steps[j - 1], user, h); }
      }
    }
  }

  // Main result: so a confirmation leaves exactly ten codes unless another of the same user is committed
  // between its purge and its commit.
  lemma AloneLeavesTen(states: seq<State>, steps: seq<Step>, j: nat) returns (i: nat, p: nat)
    requires Execution(states, steps) && j < |steps| && steps[j].CommitConfirm? && steps[j].tx in states[j].open
    requires Commits(states[j].store, states[j].open[steps[j].tx], steps[j].hashes)
    ensures ReadThenPurged(states, steps, i, p, j, steps[j].tx)
    ensures !ConfirmedBetween(states, steps, p, j, steps[i].user) ==>
              |CodesHeld(states[j + 1].store, steps[i].user)| == RECOVERY_CODES
  {
    PurgedOf(states[j], steps[j]);
    hide Next, Commits, Inv, CodesHeld, ConfirmedBetween;
    i, p := EveryConfirmWasRead(states, steps, j, steps[j].tx);
    assert Next(states[p], steps[p]) == Some(states[p + 1]) && Next(states[j], steps[j]) == Some(states[j + 1]);
    PurgeLoads(states[p], steps[p]);
    PurgeKeepsStore(states[p], steps[p]);
    ReachableInv(states, steps, j);
    TenCodesIff(states[j], steps[j]);
    if !ConfirmedBetween(states, steps, p, j, steps[i].user) { NoCodesAdded(states, steps, p, j, steps[i].user); }
  }

  lemma PurgeKeepsStore(s: State, step: Step)
    requires step.Purge? && Next(s, step).Some?
    ensures Next(s, step).value.store == s.store
  {
    hide Blocked;
  }

  // Every confirmation that commits has read and purged before.
  lemma {:induction false} ConfirmingWasRead(states: seq<State>, steps: seq<Step>, j: nat, tx: nat) returns (i: nat)
    requires Execution(states, steps) && j < |states| && tx in states[j].open && states[j].open[tx].Confirming?
    ensures i < j && steps[i] == ReadPending(tx, states[j].open[tx].user)
    ensures forall k :: i < k <= j ==> tx in states[k].open && states[k].open[tx] == states[j].open[tx]
    decreases j
  {
    hide Next;
    assert j > 0 && Next(states[j - 1], steps[j - 1]) == Some(states[j - 1 + 1]);
    TxChanges(states[j - 1], steps[j - 1], tx);
    if tx in states[j - 1].open && states[j - 1].open[tx] == states[j].open[tx] {
      i := ConfirmingWasRead(states, steps, j - 1, tx);
    } else {
      i := j - 1;
    }
  }

  lemma TxChanges(s: State, step: Step, tx: nat)
    requires Next(s, step).Some? && tx in Next(s, step).value.open
    ensures var x := Next(s, step).value.open[tx];
            (tx in s.open && s.open[tx] == x) ||
            match x
            case Confirming(user) => step == ReadPending(tx, user)
            case Purged(user, _, _, _) => step == Purge(tx) && tx in s.open && s.open[tx] == Confirming(user)
            case Redeeming(user, code) => step == Lock(tx, user, code)
  {
    hide Blocked, Commits, Confirmed;
  }

  lemma {:induction false} EveryConfirmWasRead(states: seq<State>, steps: seq<Step>, j: nat, tx: nat) returns (i: nat, p: nat)
    requires Execution(states, steps) && j <= |steps| && tx in states[j].open && states[j].open[tx].Purged?
    ensures ReadThenPurged(states, steps, i, p, j, tx)
    decreases j
  {
    hide Next;
    assert j > 0 && Next(states[j - 1], steps[j - 1]) == Some(states[j - 1 + 1]);
    TxChanges(states[j - 1], steps[j - 1], tx);
    if tx in states[j - 1].open && states[j - 1].open[tx] == states[j].open[tx] {
      i, p := EveryConfirmWasRead(states, steps, j - 1, tx);
    } else {
      p := j - 1;
      i := ConfirmingWasRead(states, steps, p, tx);
    }
  }

  // --- Runs in which it happens ---

  ghost function Steps(s: State, steps: seq<Step>): Option<State>
    decreases |steps|
  {
    if steps == [] then Some(s)
    else
      match Next(s, steps[0])
      case None => None
      case Some(s') => Steps(s', steps[1..])
  }

  lemma Chain(s: State, s': State, step: Step, rest: seq<Step>, all: seq<Step>)
    requires Next(s, step) == Some(s') && all == [step] + rest
    ensures Steps(s, all) == Steps(s', rest)
  {
    hide Next;
    assert all[1..] == rest;
  }

  // A user with a pending enrollment, no codes, and nothing under way.
  ghost predicate Fresh(s: State, user: Id, row: Id) {
    s.open == map[] && s.store.codes == map[] && user in s.store.users && s.store.users[user] == User(false, Some(Row(row, false)))
  }

  lemma DisabledWhileConfirming(s: State, user: Id, row: Id, hashes: CodeBatch)
    requires Fresh(s, user, row) && Distinct(hashes)
    ensures var end := Steps(s, [ReadPending(0, user), DisableWhole(user), Purge(0), CommitConfirm(0, hashes)]);
            end.Some? && Bare(end.value, user)
  {
    assert CodesHeld(s.store, user) == {};
    var s1 := Next(s, ReadPending(0, user)).value;
    var s2 := Next(s1, DisableWhole(user)).value;
    assert CodesHeld(s2.store, user) == {};
    var s3 := Next(s2, Purge(0)).value;
    assert s3.open[0] == Purged(user, None, false, {});
    assert Without(s3.store.codes, {}) == map[];
    var s4 := Next(s3, CommitConfirm(0, hashes)).value;
    hide Next;
    var all := [ReadPending(0, user), DisableWhole(user), Purge(0), CommitConfirm(0, hashes)];
    Chain(s, s1, all[0], all[1..], all);
    Chain(s1, s2, all[1], all[2..], all[1..]);
    Chain(s2, s3, all[2], all[3..], all[2..]);
    Chain(s3, s4, all[3], [], all[3..]);
  }

  // The states of two confirmations that read and purge before either commits.
  ghost function Overlapping(s: State, user: Id, row: Id, k: nat): State
    requires 1 <= k <= 4
  {
    var purged := Purged(user, Some(row), false, {});
    s.(open := if k == 1 then map[0 := Confirming(user)]
               else if k == 2 then map[0 := Confirming(user), 1 := Confirming(user)]
               else if k == 3 then map[0 := purged, 1 := Confirming(user)]
               else map[0 := purged, 1 := purged])
  }

  lemma OverlapRead(s: State, user: Id, row: Id)
    requires Fresh(s, user, row)
    ensures Next(s, ReadPending(0, user)) == Some(Overlapping(s, user, row, 1))
    ensures Next(Overlapping(s, user, row, 1), ReadPending(1, user)) == Some(Overlapping(s, user, row, 2))
  {
    assert s.open[0 := Confirming(user)] == Overlapping(s, user, row, 1).open;
    assert Overlapping(s, user, row, 1).open[1 := Confirming(user)] == Overlapping(s, user, row, 2).open;
  }

  lemma OverlapPurge(s: State, user: Id, row: Id)
    requires Fresh(s, user, row)
    ensures Next(Overlapping(s, user, row, 2), Purge(0)) == Some(Overlapping(s, user, row, 3))
    ensures Next(Overlapping(s, user, row, 3), Purge(1)) == Some(Overlapping(s, user, row, 4))
  {
    assert CodesHeld(s.store, user) == {};
    var purged := Purged(user, Some(row), false, {});
    assert Overlapping(s, user, row, 2).open[0 := purged] == Overlapping(s, user, row, 3).open;
    assert Overlapping(s, user, row, 3).open[1 := purged] == Overlapping(s, user, row, 4).open;
  }

  lemma OverlapCommit(s: State, user: Id, row: Id, a: CodeBatch, b: CodeBatch)
    requires Fresh(s, user, row) && Distinct(a) && Distinct(b) && Elements(a) !! Elements(b)
    ensures var first := Next(Overlapping(s, user, row, 4), CommitConfirm(0, a));
            && first.Some?
            && var both := Next(first.value, CommitConfirm(1, b));
               both.Some? && CodesHeld(both.value.store, user) == Elements(a) + Elements(b)
  {
    assert Without(map[], {}) == map[];
    var first := Next(Overlapping(s, user, row, 4), CommitConfirm(0, a)).value;
    assert Without(first.store.codes, {}) == first.store.codes;
    assert first.open[1] == Purged(user, Some(row), false, {});
    forall i | 0 <= i < |b| ensures b[i] !in first.store.codes { assert b[i] in Elements(b); }
  }

  // Twenty codes.
  lemma OverlappingConfirmations(s: State, user: Id, row: Id, a: CodeBatch, b: CodeBatch)
    requires Fresh(s, user, row) && Distinct(a) && Distinct(b) && Elements(a) !! Elements(b)
    ensures var end := Steps(s, [ReadPending(0, user), ReadPending(1, user), Purge(0), Purge(1), CommitConfirm(0, a), CommitConfirm(1, b)]);
            end.Some? && |CodesHeld(end.value.store, user)| == 2 * RECOVERY_CODES
  {
    hide Next, Fresh, Overlapping, CodesHeld, Elements;
    OverlapRead(s, user, row);
    OverlapPurge(s, user, row);
    OverlapCommit(s, user, row, a, b);
    var all := [ReadPending(0, user), ReadPending(1, user), Purge(0), Purge(1), CommitConfirm(0, a), CommitConfirm(1, b)];
    var s5 := Next(Overlapping(s, user, row, 4), CommitConfirm(0, a)).value;
    var s6 := Next(s5, CommitConfirm(1, b)).value;
    Chain(s, Overlapping(s, user, row, 1), all[0], all[1..], all);
    Chain(Overlapping(s, user, row, 1), Overlapping(s, user, row, 2), all[1], all[2..], all[1..]);
    Chain(Overlapping(s, user, row, 2), Overlapping(s, user, row, 3), all[2], all[3..], all[2..]);
    Chain(Overlapping(s, user, row, 3), Overlapping(s, user, row, 4), all[3], all[4..], all[3..]);
    Chain(Overlapping(s, user, row, 4), s5, all[4], all[5..], all[4..]);
    Chain(s5, s6, all[5], [], all[5..]);
    DistinctCount(a);
    DistinctCount(b);
    assert |Elements(a) + Elements(b)| == |Elements(a)| + |Elements(b)|;
  }

  // --- A use case that meets no other is the one step it is in Mfa ---

  // The same tables, with the row's id in the place of its seed.
  ghost function AsTables(s: Store): Mfa.Tables {
    Mfa.Tables(map u | u in s.users :: Account(s.users[u].enabled, RecordOf(s.users[u].row)), s.codes)
  }

  ghost function RecordOf(row: Option<Row>): Option<Totp> {
    match row
    case None => None
    case Some(r) => Some(Totp(r.id, r.confirmed))
  }

  lemma UserChanged(s: Store, user: Id, u: User, codes: map<CodeHash, RecoveryCode>)
    ensures AsTables(Store(s.users[user := u], codes)) ==
            Mfa.Tables(AsTables(s).accounts[user := Account(u.enabled, RecordOf(u.row))], codes)
  {
  }

  // With nothing else open, a confirmation whose code is right does all three steps or is refused, and
  // comes to what the single step does.
  lemma AloneIsConfirm(s: State, user: Id, hashes: CodeBatch)
    requires s.open == map[] && user in s.store.users
    ensures var (t', r) := Mfa.Apply(AsTables(s.store), Mfa.Confirm(user, true, hashes));
            var end := Steps(s, [ReadPending(0, user), Purge(0), CommitConfirm(0, hashes)]);
            if r == Mfa.Rejected then end.None?
            else end.Some? && AsTables(end.value.store) == t' && end.value.open == map[]
  {
    var all := [ReadPending(0, user), Purge(0), CommitConfirm(0, hashes)];
    var u := s.store.users[user];
    if u.row.Some? && !u.row.value.confirmed {
      var purged := Purged(user, Some(u.row.value.id), u.enabled, CodesHeld(s.store, user));
      var s1, s2 := s.(open := map[0 := Confirming(user)]), s.(open := map[0 := purged]);
      AloneReads(s, user, s1, s2);
      SameWithout(s.store, user);
      var s3 := Next(s2, CommitConfirm(0, hashes)).value;
      AloneCommits(s, user, hashes, s2);
      hide Next;
      Chain(s, s1, all[0], all[1..], all);
      Chain(s1, s2, all[1], all[2..], all[1..]);
      Chain(s2, s3, all[2], [], all[2..]);
    }
  }

  lemma AloneReads(s: State, user: Id, s1: State, s2: State)
    requires s.open == map[] && user in s.store.users && s.store.users[user].row.Some? && !s.store.users[user].row.value.confirmed
    requires s1 == s.(open := map[0 := Confirming(user)])
    requires s2 == s.(open := map[0 := Purged(user, Some(s.store.users[user].row.value.id), s.store.users[user].enabled, CodesHeld(s.store, user))])
    ensures Next(s, ReadPending(0, user)) == Some(s1) && Next(s1, Purge(0)) == Some(s2)
  {
    assert s.open[0 := Confirming(user)] == s1.open;
    assert s1.open[0 := s2.open[0]] == s2.open;
  }

  lemma SameWithout(s: Store, user: Id)
    ensures Without(s.codes, CodesHeld(s, user)) == WithoutCodes(s.codes, user)
  {
  }

  lemma AloneCommits(s: State, user: Id, hashes: CodeBatch, s2: State)
    requires user in s.store.users && s.store.users[user].row.Some? && !s.store.users[user].row.value.confirmed
    requires s2 == s.(open := map[0 := Purged(user, Some(s.store.users[user].row.value.id), s.store.users[user].enabled, CodesHeld(s.store, user))])
    ensures var end := Next(s2, CommitConfirm(0, hashes));
            end.Some? && end.value.open == map[]
            && AsTables(end.value.store) == Mfa.Apply(AsTables(s.store), Mfa.Confirm(user, true, hashes)).0
  {
    hide BatchFits, AddCodes;
    SameWithout(s.store, user);
    assert s2.open - {0} == map[];
    var codes := AddCodes(WithoutCodes(s.store.codes, user), user, hashes);
    UserChanged(s.store, user, User(true, Some(Row(s.store.users[user].row.value.id, true))), codes);
    UserChanged(s.store, user, User(s.store.users[user].enabled, Some(Row(s.store.users[user].row.value.id, true))), codes);
    hide AsTables;
    assert AsTables(s.store).codes == s.store.codes by { TablesOf(s.store, user); }
    TablesOf(s.store, user);
  }

  lemma TablesOf(s: Store, user: Id)
    ensures AsTables(s).codes == s.codes
    ensures user in s.users <==> user in AsTables(s).accounts
    ensures user in s.users ==> AsTables(s).accounts[user] == Account(s.users[user].enabled, RecordOf(s.users[user].row))
  {
  }

  // Likewise a login with a recovery code of an enabled user, and the use cases that are one step here.
  lemma AloneIsLogin(s: State, user: Id, h: CodeHash)
    requires s.open == map[] && user in s.store.users && s.store.users[user].enabled
    ensures var (t', r) := Mfa.Apply(AsTables(s.store), CompleteLogin(user, true, false, h, true));
            var end := Steps(s, [Lock(0, user, h), CommitLogin(0)]);
            if r == Mfa.Rejected then end.None?
            else end.Some? && AsTables(end.value.store) == t' && end.value.open == map[]
  {
    var all := [Lock(0, user, h), CommitLogin(0)];
    TablesOf(s.store, user);
    if h in s.store.codes && s.store.codes[h].user == user && !s.store.codes[h].used {
      var s1 := s.(open := map[0 := Redeeming(user, h)]);
      assert s.open[0 := Redeeming(user, h)] == s1.open && s1.open - {0} == map[];
      var s2 := Next(s1, CommitLogin(0)).value;
      Chain(s, s1, all[0], all[1..], all);
      Chain(s1, s2, all[1], [], all[1..]);
      hide Next, Steps;
    }
  }

  lemma WholeSteps(s: State, user: Id, row: Id)
    requires s.open == map[] && user in s.store.users
    ensures var started := Next(s, Start(user, row));
            started.Some? && AsTables(started.value.store) == Mfa.Apply(AsTables(s.store), StartEnrollment(user, row)).0
    ensures var disabled := Next(s, DisableWhole(user));
            disabled.Some? && AsTables(disabled.value.store) == Mfa.Apply(AsTables(s.store), Mfa.Disable(user)).0
  {
    TablesOf(s.store, user);
    UserChanged(s.store, user, s.store.users[user].(row := Some(Row(row, false))), s.store.codes);
    UserChanged(s.store, user, User(false, None), WithoutCodes(s.store.codes, user));
    hide AsTables;
  }
}
