// Rotations and deletions as interleaved transactions. A rotation locks the secret's row when it reads
// it; a deletion reads it without a lock and marks it later, in an UPDATE that waits for the row.
module SecretRaces {
  import opened Wrappers
  import opened Text
  import opened AuditHashing
  import opened AuditService
  import opened SecretStore
  import SecretLedger

  datatype Tx =
    | Rotating(op: Op, view: Secret)  // the row locked, as read
    | Reading(op: Op)                 // a deletion that found the secret active
    | Marking(op: Op)                 // its UPDATE found the row active and holds it

  datatype State = State(tables: Tables, open: map<nat, Tx>)

  datatype Step =
    | LockSecret(tx: nat, op: Op)
    | ReadSecret(tx: nat, op: Op)
    | MarkDeleted(tx: nat)
    | Commit(tx: nat)
    | Abort(tx: nat)
    | Whole(op: Op)  // provisioning, creation, reveal, and refused calls, in one step each

  predicate OfKind(x: Tx) { if x.Rotating? then x.op.Rotate? else x.op.Delete? }

  // The secret whose row the transaction has locked.
  function Holds(x: Tx): Option<Uuid> { if x.Reading? || !OfKind(x) then None else Some(x.op.secretId) }

  ghost predicate LockedByOther(s: State, id: Uuid, i: nat) {
    exists j :: j in s.open && j != i && Holds(s.open[j]) == Some(id)
  }

  // What a rotation writes at its commit, from the version it read.
  function CommitRotation(e: Env, t: Tables, op: Op, view: Secret): Tables
    requires op.Rotate?
  {
    var tenant, next := op.actor.tenantId, view.currentVersion + 1;
    match Seal(e, t, tenant, op.vault, op.secretId, next, op.plaintext, op.nonce)
    case SealFailed(_) => t
    case SealedRow(row) =>
      if (op.secretId, next) in t.versions || op.secretId !in t.secrets then t
      else
        var t1 := t.(versions := t.versions[(op.secretId, next) := row],
                     secrets := t.secrets[op.secretId := t.secrets[op.secretId].(currentVersion := next)]);
        match Recording(e, t1, RotationEvent(op.actor, op.vault, op.secretId, next, row.dekVersion), op.stamp)
        case None => t
        case Some(t2) => t2
  }

  function CommitDeletion(e: Env, t: Tables, op: Op): Tables
    requires op.Delete?
  {
    if op.secretId !in t.secrets then t
    else
      var t1 := t.(secrets := t.secrets[op.secretId := t.secrets[op.secretId].(deleted := true)]);
      match Recording(e, t1, SecretEvent(op.actor, "secret.deleted", op.secretId, [VaultEntry(op.vault)]), op.stamp)
      case None => t
      case Some(t2) => t2
  }

  // None when a step is blocked or not possible.
  ghost function Next(e: Env, s: State, step: Step): Option<State> {
    var t := s.tables;
    match step
    case LockSecret(i, op) =>
      if i in s.open || !op.Rotate? || op.access.Denied? || LockedByOther(s, op.secretId, i) then None
      else if !Active(t, op.secretId, op.vault, op.actor.tenantId) then Some(s)
      else Some(s.(open := s.open[i := Rotating(op, t.secrets[op.secretId])]))
    case ReadSecret(i, op) =>
      if i in s.open || !op.Delete? || op.access.Denied? || !op.stepUp then None
      else if !Active(t, op.secretId, op.vault, op.actor.tenantId) then Some(s)
      else Some(s.(open := s.open[i := Reading(op)]))
    case MarkDeleted(i) =>
      if i !in s.open || !s.open[i].Reading? || !s.open[i].op.Delete? || LockedByOther(s, s.open[i].op.secretId, i) then None
      else
        var op := s.open[i].op;
        if op.secretId in t.secrets && t.secrets[op.secretId].tenant == op.actor.tenantId && !t.secrets[op.secretId].deleted
        then Some(s.(open := s.open[i := Marking(op)]))
        else Some(s.(open := s.open - {i}))
    case Commit(i) =>
      if i !in s.open || s.open[i].Reading? || !OfKind(s.open[i]) then None
      else
        var x := s.open[i];
        Some(State(if x.Rotating? then CommitRotation(e, t, x.op, x.view) else CommitDeletion(e, t, x.op), s.open - {i}))
    case Abort(i) => if i in s.open then Some(s.(open := s.open - {i})) else None
    case Whole(op) =>
      if (op.Rotate? || op.Delete?) && !op.access.Denied? && (op.Delete? ==> op.stepUp) then None
      else Some(s.(tables := Apply(e, t, op).0))
  }

  const START := State(EMPTY, map[])

  ghost predicate Execution(e: Env, states: seq<State>, steps: seq<Step>) {
    && |states| == |steps| + 1
    && states[0] == START
    && forall k :: 0 <= k < |steps| ==> Next(e, states[k], steps[k]) == Some(states[k + 1])
  }

  // --- What holders of a row can rely on ---

  ghost predicate TxOk(t: Tables, x: Tx) {
    && OfKind(x) && x.op.access.Allowed? && (x.op.Delete? ==> x.op.stepUp)
    && x.op.secretId in t.secrets
    && t.secrets[x.op.secretId].vault == x.op.vault && t.secrets[x.op.secretId].tenant == x.op.actor.tenantId
    && (!x.Reading? ==> !t.secrets[x.op.secretId].deleted)
    && (x.Rotating? ==> t.secrets[x.op.secretId] == x.view)
  }

  ghost predicate Exclusive(open: map<nat, Tx>) {
    forall i, j :: i in open && j in open && i != j && Holds(open[i]).Some? ==> Holds(open[i]) != Holds(open[j])
  }

  ghost predicate Inv(s: State) { (forall i :: i in s.open ==> TxOk(s.tables, s.open[i])) && Exclusive(s.open) }

  // Rows of secrets stay, with vault and tenant; the ones held by others stay as they are.
  ghost predicate Kept(t: Tables, t': Tables, changed: Option<Uuid>) {
    forall id :: id in t.secrets ==>
      && id in t'.secrets && t'.secrets[id].vault == t.secrets[id].vault && t'.secrets[id].tenant == t.secrets[id].tenant
      && (changed != Some(id) ==> t'.secrets[id] == t.secrets[id])
  }

  lemma RotationIsWhole(e: Env, t: Tables, x: Tx)
    requires TxOk(t, x) && x.Rotating?
    ensures CommitRotation(e, t, x.op, x.view) == Apply(e, t, x.op).0
    ensures Kept(t, CommitRotation(e, t, x.op, x.view), Some(x.op.secretId))
  {
    hide Seal, RecordIn;
  }

  lemma DeletionIsWhole(e: Env, t: Tables, x: Tx)
    requires TxOk(t, x) && x.Marking?
    ensures CommitDeletion(e, t, x.op) == Apply(e, t, x.op).0
    ensures Kept(t, CommitDeletion(e, t, x.op), Some(x.op.secretId))
  {
    hide RecordIn;
  }

  lemma WholeKeeps(e: Env, t: Tables, op: Op)
    requires op.Rotate? ==> op.access.Denied?
    requires op.Delete? ==> op.access.Denied? || !op.stepUp
    ensures Kept(t, Apply(e, t, op).0, None)
  {
    hide Seal, RecordIn, RevealValue, Denial;
  }

  lemma TxStays(t: Tables, t': Tables, x: Tx, changed: Option<Uuid>)
    requires TxOk(t, x) && Kept(t, t', changed) && (Holds(x).Some? ==> Holds(x) != changed)
    ensures TxOk(t', x)
  {
  }

  lemma OthersStay(s: State, t': Tables, open: map<nat, Tx>, changed: Option<Uuid>)
    requires Inv(s) && Kept(s.tables, t', changed) && open.Keys <= s.open.Keys && forall i :: i in open ==> open[i] == s.open[i]
    requires forall i :: i in open && Holds(open[i]).Some? ==> Holds(open[i]) != changed
    ensures Inv(State(t', open))
  {
    hide TxOk, Kept;
    forall i | i in open ensures TxOk(t', open[i]) {
      assert TxOk(s.tables, s.open[i]);
      TxStays(s.tables, t', open[i], changed);
    }
  }

  lemma OpenStep(s: State, i: nat, x: Tx)
    requires Inv(s) && TxOk(s.tables, x) && (Holds(x).Some? ==> !LockedByOther(s, x.op.secretId, i))
    requires i in s.open ==> s.open[i].Reading?
    ensures Inv(s.(open := s.open[i := x]))
  {
    hide TxOk;
    OfKindAll(s);
    assert TxOk(s.tables, x) ==> OfKind(x) by { KindOf(s.tables, x); }
  }

  lemma KindOf(t: Tables, x: Tx)
    requires TxOk(t, x)
    ensures OfKind(x)
  {
  }

  lemma OfKindAll(s: State)
    requires Inv(s)
    ensures forall i :: i in s.open ==> OfKind(s.open[i])
  {
  }

  // The use case that takes effect in the step, if one does.
  ghost function Effect(s: State, step: Step): seq<Op> {
    if step.Whole? then [step.op]
    else if step.Commit? && step.tx in s.open then [s.open[step.tx].op]
    else []
  }

  lemma CommitStep(e: Env, s: State, i: nat)
    requires Inv(s) && i in s.open && !s.open[i].Reading? && OfKind(s.open[i])
    ensures var s' := Next(e, s, Commit(i));
            s'.Some? && Inv(s'.value) && s'.value.tables == Apply(e, s.tables, s.open[i].op).0
  {
    hide CommitRotation, CommitDeletion, Apply, Kept, TxOk;
    var x := s.open[i];
    OfKindAll(s);
    assert TxOk(s.tables, x);
    if x.Rotating? { RotationIsWhole(e, s.tables, x); } else { DeletionIsWhole(e, s.tables, x); }
    OthersStay(s, Next(e, s, Commit(i)).value.tables, s.open - {i}, Some(x.op.secretId));
  }

  lemma SelfKept(t: Tables)
    ensures Kept(t, t, None)
  {
  }

  lemma InvStep(e: Env, s: State, step: Step)
    requires Inv(s) && Next(e, s, step).Some?
    ensures Inv(Next(e, s, step).value)
    ensures Next(e, s, step).value.tables == if Effect(s, step) == [] then s.tables else Apply(e, s.tables, Effect(s, step)[0]).0
  {
    hide Inv, CommitRotation, CommitDeletion, Apply, Kept, TxOk, LockedByOther;
    SelfKept(s.tables);
    match step
    case LockSecret(i, op) =>
      if Active(s.tables, op.secretId, op.vault, op.actor.tenantId) {
        RotatingOk(s.tables, op);
        OpenStep(s, i, Rotating(op, s.tables.secrets[op.secretId]));
      }
    case ReadSecret(i, op) =>
      if Active(s.tables, op.secretId, op.vault, op.actor.tenantId) {
        ReadingOk(s.tables, op);
        OpenStep(s, i, Reading(op));
      }
    case MarkDeleted(i) =>
      MarkStep(e, s, i);
    case Commit(i) => CommitStep(e, s, i);
    case Abort(i) => Closed(s, i);
    case Whole(op) =>
      WholeKeeps(e, s.tables, op);
      OthersStay(s, Apply(e, s.tables, op).0, s.open, None);
  }

  lemma Closed(s: State, i: nat)
    requires Inv(s)
    ensures Inv(s.(open := s.open - {i}))
  {
    hide TxOk;
  }

  lemma RotatingOk(t: Tables, op: Op)
    requires op.Rotate? && op.access.Allowed? && Active(t, op.secretId, op.vault, op.actor.tenantId)
    ensures TxOk(t, Rotating(op, t.secrets[op.secretId]))
  {
  }

  lemma ReadingOk(t: Tables, op: Op)
    requires op.Delete? && op.access.Allowed? && op.stepUp && Active(t, op.secretId, op.vault, op.actor.tenantId)
    ensures TxOk(t, Reading(op))
  {
  }

  lemma MarkStep(e: Env, s: State, i: nat)
    requires Inv(s) && Next(e, s, MarkDeleted(i)).Some?
    ensures Inv(Next(e, s, MarkDeleted(i)).value)
  {
    hide Exclusive, LockedByOther;
    var op := s.open[i].op;
    assert TxOk(s.tables, s.open[i]);
    if op.secretId in s.tables.secrets && s.tables.secrets[op.secretId].tenant == op.actor.tenantId && !s.tables.secrets[op.secretId].deleted {
      OpenStep(s, i, Marking(op));
    } else {
      Closed(s, i);
    }
  }

  // --- Runs ---

  // The use cases in the order they took effect.
  ghost function Effects(states: seq<State>, steps: seq<Step>, k: nat): seq<Op>
    requires k <= |steps| < |states|
  {
    if k == 0 then [] else Effects(states, steps, k - 1) + Effect(states[k - 1], steps[k - 1])
  }

  lemma AfterOneMore(e: Env, ops: seq<Op>, op: Op)
    ensures After(e, ops + [op]) == Apply(e, After(e, ops), op).0
  {
    hide Apply;
    assert (ops + [op])[..|ops|] == ops;
  }

  // Main result: under the lock on the secret's row every interleaving has, in each state, the tables of
  // the whole use cases run one after the other in the order of their commits.
  lemma {:induction false} Serializable(e: Env, states: seq<State>, steps: seq<Step>, k: nat)
    requires Execution(e, states, steps) && k < |states|
    ensures Inv(states[k]) && states[k].tables == After(e, Effects(states, steps, k))
    decreases k
  {
    hide Inv, Next, Apply;
    if k == 0 {
      assert Inv(START) by { NothingOpen(); }
    } else {
      Serializable(e, states, steps, k - 1);
      assert Next(e, states[k - 1], steps[k - 1]) == Some(states[k - 1 + 1]);
      InvStep(e, states[k - 1], steps[k - 1]);
      var done := Effect(states[k - 1], steps[k - 1]);
      var before := Effects(states, steps, k - 1);
      if done == [] {
        assert before + done == before;
      } else {
        assert done == [done[0]];
        AfterOneMore(e, before, done[0]);
      }
    }
  }

  lemma NothingOpen()
    ensures Inv(START)
  {
  }

  // Main result: so the ledger tells each secret's story in every state of every interleaving as well.
  lemma LedgerMatchesStoreInterleaved(e: Env, states: seq<State>, steps: seq<Step>, k: nat, tenant: Uuid, id: Uuid)
    requires Execution(e, states, steps) && k < |states|
    ensures var t := states[k].tables;
            var changes := SecretLedger.Changes(LedgerOf(t.audit, tenant).events, id);
            if id in t.secrets && t.secrets[id].tenant == tenant then
              var n, deleted := t.secrets[id].currentVersion, t.secrets[id].deleted;
              n >= 1 && changes == SecretLedger.Story(n, deleted)
            else changes == []
  {
    Serializable(e, states, steps, k);
    SecretLedger.RunAgrees(e, Effects(states, steps, k));
    assert SecretLedger.TellsStory(states[k].tables, tenant, id);
    hide Execution, After, Effects, SecretLedger.Changes;
  }
}
