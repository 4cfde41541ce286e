// Concurrent transactions that record audit events, as a state machine over lock, insert, advance,
// commit and abort steps. A row lock re-reads the latest committed row; the first head row of a
// tenant is inserted in a separate step that can meet the primary key.
module AuditConcurrency {
  import opened Wrappers
  import opened Text
  import opened Sorting
  import opened AuditHashing
  import opened AuditService

  datatype Phase =
    | Begun     // no head read yet
    | NoHead    // SELECT ... FOR UPDATE found no row; the INSERT comes next
    | Holding   // the head row is locked, or inserted by this transaction
    | Inserted  // insert_event done, advance_head not yet
    | Closed    // committed or rolled back

  // `created`: the head row is this transaction's own uncommitted insert. `view`: the head as the
  // transaction sees it. `pending`: its uncommitted event rows.
  datatype Tx = Tx(tenant: Uuid, phase: Phase, created: bool, view: ChainHead, pending: seq<AuditEvent>)

  // Committed rows, and the transactions by number.
  datatype Db = Db(audit: AuditRows, txs: map<nat, Tx>)

  datatype Step =
    | Begin(tx: nat, tenant: Uuid)
    | SelectHead(tx: nat)
    | InsertHead(tx: nat)
    | AddEvent(tx: nat, request: Request, id: Uuid, now: UtcTime)
    | AdvanceHead(tx: nat)
    | Commit(tx: nat)
    | Abort(tx: nat)

  function Rows(db: Db, t: Uuid): seq<AuditEvent> { LedgerOf(db.audit, t).events }

  function HeadRow(db: Db, t: Uuid): Option<ChainHead> { LedgerOf(db.audit, t).head }

  predicate Holds(x: Tx) { x.phase == Holding || x.phase == Inserted }

  // Another transaction holds the tenant's head row, locked or as an uncommitted insert.
  ghost predicate HeldByOther(db: Db, t: Uuid, i: nat) {
    exists j :: j in db.txs && j != i && Holds(db.txs[j]) && db.txs[j].tenant == t
  }

  predicate UniqueViolation(rows: AuditRows, t: Uuid, pending: seq<AuditEvent>) {
    exists k :: 0 <= k < |pending| &&
      (|| Clashes(LedgerOf(rows, t).events + pending[..k], pending[k])
       || IdTaken(rows.events, pending[k].id) || HasId(pending[..k], pending[k].id))
  }

  function Close(db: Db, i: nat): Db
    requires i in db.txs
  {
    db.(txs := db.txs[i := db.txs[i].(phase := Closed)])
  }

  // The state after a step; None when the step is blocked or not the transaction's next one.
  ghost function Apply(h: Hash, db: Db, s: Step): Option<Db> {
    if s.Begin? then
      if s.tx in db.txs then None
      else Some(db.(txs := db.txs[s.tx := Tx(s.tenant, Begun, false, ChainHead(s.tenant, 0, None), [])]))
    else if s.tx !in db.txs then None
    else
      var x := db.txs[s.tx];
      var t := x.tenant;
      match s
      case SelectHead(i) =>
        if x.phase != Begun then None
        else if t !in db.audit.heads then Some(db.(txs := db.txs[i := x.(phase := NoHead)]))
        else if HeldByOther(db, t, i) then None
        else Some(db.(txs := db.txs[i := x.(phase := Holding, view := db.audit.heads[t])]))
      case InsertHead(i) =>
        if x.phase != NoHead then None
        else if t in db.audit.heads then Some(Close(db, i))          // primary key: IntegrityError
        else if HeldByOther(db, t, i) then None                // waits for the other insert
        else Some(db.(txs := db.txs[i := x.(phase := Holding, created := true)]))
      case AddEvent(i, r, id, now) =>
        if x.phase != Holding || r.actor.tenantId != t then None
        else Some(db.(txs := db.txs[i := x.(phase := Inserted, pending := x.pending + [NextEvent(h, x.view, r, id, now)])]))
      case AdvanceHead(i) =>
        if x.phase != Inserted || x.pending == [] then None
        else Some(db.(txs := db.txs[i := x.(phase := Holding, view := HeadAfter(x.pending[|x.pending| - 1]))]))
      case Commit(i) =>
        if x.phase == Begun then Some(Close(db, i))
        else if x.phase != Holding then None
        else if UniqueViolation(db.audit, t, x.pending) then Some(Close(db, i))
        else Some(Close(db, i).(audit := AuditRows(db.audit.heads[t := x.view], db.audit.events[t := Rows(db, t) + x.pending])))
      case Abort(i) =>
        if x.phase == Closed then None else Some(Close(db, i))
  }

  const EMPTY := Db(NO_ROWS, map[])

  // --- Invariant ---

  ghost predicate CommittedOk(h: Hash, db: Db, t: Uuid) {
    ChainOk(h, LedgerOf(db.audit, t))
  }

  // A holder's view continues the committed chain with its own pending rows.
  ghost predicate TxOk(h: Hash, db: Db, x: Tx) {
    Holds(x) ==>
      && (x.created <==> x.tenant !in db.audit.heads)
      && (x.phase == Inserted ==> x.pending != [])
      && Verifies(h, Rows(db, x.tenant) + x.pending,
                  Some(if x.phase == Inserted then HeadAfter(x.pending[|x.pending| - 1]) else x.view))
  }

  ghost predicate Exclusive(txs: map<nat, Tx>) {
    forall i, j :: i in txs && j in txs && i != j && Holds(txs[i]) && Holds(txs[j]) ==> txs[i].tenant != txs[j].tenant
  }

  ghost predicate Inv(h: Hash, db: Db) {
    && (forall t :: CommittedOk(h, db, t))
    && (forall i :: i in db.txs ==> TxOk(h, db, db.txs[i]))
    && Exclusive(db.txs)
  }

  // A step that changes one transaction and no committed row.
  lemma LocalStep(h: Hash, db: Db, i: nat, x: Tx)
    requires Inv(h, db) && TxOk(h, db, x)
    requires Holds(x) ==> !HeldByOther(db, x.tenant, i)
    ensures Inv(h, db.(txs := db.txs[i := x]))
  {
    hide Verifies, ChainOk;
    var db' := db.(txs := db.txs[i := x]);
    forall t ensures CommittedOk(h, db', t) { assert CommittedOk(h, db, t); }
    forall j | j in db'.txs ensures TxOk(h, db', db'.txs[j]) {
      assert j != i ==> TxOk(h, db, db.txs[j]);
    }
  }

  lemma CommitStep(h: Hash, db: Db, i: nat)
    requires Inv(h, db) && i in db.txs && db.txs[i].phase == Holding
    ensures var x := db.txs[i];
            Inv(h, Close(db, i).(audit := AuditRows(db.audit.heads[x.tenant := x.view], db.audit.events[x.tenant := Rows(db, x.tenant) + x.pending])))
  {
    hide Verifies;
    var x := db.txs[i];
    var db' := Close(db, i).(audit := AuditRows(db.audit.heads[x.tenant := x.view], db.audit.events[x.tenant := Rows(db, x.tenant) + x.pending]));
    forall t ensures CommittedOk(h, db', t) {
      assert CommittedOk(h, db, t) && TxOk(h, db, x);
    }
    forall j | j in db'.txs ensures TxOk(h, db', db'.txs[j]) {
      if j != i && Holds(db.txs[j]) {
        assert TxOk(h, db, db.txs[j]) && db.txs[j].tenant != x.tenant;
      }
    }
  }

  lemma LockedViewOk(h: Hash, db: Db, x: Tx)
    requires Inv(h, db) && x.phase == Holding && x.pending == []
    requires x.tenant in db.audit.heads && x.view == db.audit.heads[x.tenant] && !x.created
    ensures TxOk(h, db, x)
  {
    assert CommittedOk(h, db, x.tenant);
    assert Rows(db, x.tenant) + [] == Rows(db, x.tenant);
  }

  lemma FirstViewOk(h: Hash, db: Db, x: Tx)
    requires Inv(h, db) && x.phase == Holding && x.pending == []
    requires x.tenant !in db.audit.heads && x.view == ChainHead(x.tenant, 0, None) && x.created
    ensures TxOk(h, db, x)
  {
    assert CommittedOk(h, db, x.tenant);
    assert Rows(db, x.tenant) + [] == [];
  }

  lemma AddedEventOk(h: Hash, db: Db, x: Tx, r: Request, id: Uuid, now: UtcTime)
    requires TxOk(h, db, x) && x.phase == Holding
    ensures TxOk(h, db, x.(phase := Inserted, pending := x.pending + [NextEvent(h, x.view, r, id, now)]))
  {
    hide Verifies, NextEvent;
    var e := NextEvent(h, x.view, r, id, now);
    var all := Rows(db, x.tenant) + x.pending;
    NextEventExtends(h, all, x.view, r, id, now);
    assert all + [e] == Rows(db, x.tenant) + (x.pending + [e]);
  }

  // Before the head row is read a transaction has no rows and the default view.
  ghost predicate FreshUntilHead(db: Db) {
    forall i :: i in db.txs && (db.txs[i].phase == Begun || db.txs[i].phase == NoHead) ==>
      db.txs[i].pending == [] && !db.txs[i].created && db.txs[i].view == ChainHead(db.txs[i].tenant, 0, None)
  }

  lemma InvStep(h: Hash, db: Db, s: Step)
    requires Inv(h, db) && FreshUntilHead(db) && Apply(h, db, s).Some?
    ensures Inv(h, Apply(h, db, s).value) && FreshUntilHead(Apply(h, db, s).value)
  {
    hide Inv, TxOk, NextEvent, HeldByOther, UniqueViolation, HeadAfter;
    if s.Begin? {
      var x := Tx(s.tenant, Begun, false, ChainHead(s.tenant, 0, None), []);
      IdleOk(h, db, x);
      LocalStep(h, db, s.tx, x);
    } else {
      var x := db.txs[s.tx];
      MemberOk(h, db, s.tx);
      IdleOk(h, db, x.(phase := Closed));
      LocalStep(h, db, s.tx, x.(phase := Closed));
      match s
      case SelectHead(i) =>
        if x.tenant in db.audit.heads {
          var y := x.(phase := Holding, view := db.audit.heads[x.tenant]);
          LockedViewOk(h, db, y);
          LocalStep(h, db, i, y);
        } else {
          IdleOk(h, db, x.(phase := NoHead));
          LocalStep(h, db, i, x.(phase := NoHead));
        }
      case InsertHead(i) =>
        if x.tenant !in db.audit.heads {
          var y := x.(phase := Holding, created := true);
          FirstViewOk(h, db, y);
          LocalStep(h, db, i, y);
        }
      case AddEvent(i, r, id, now) =>
        AddedEventOk(h, db, x, r, id, now);
        LocalStep(h, db, i, x.(phase := Inserted, pending := x.pending + [NextEvent(h, x.view, r, id, now)]));
      case AdvanceHead(i) =>
        var y := x.(phase := Holding, view := HeadAfter(x.pending[|x.pending| - 1]));
        AdvancedOk(h, db, x);
        LocalStep(h, db, i, y);
      case Commit(i) =>
        if x.phase == Holding { CommitStep(h, db, i); }
      case Abort(i) =>
    }
  }

  lemma IdleOk(h: Hash, db: Db, x: Tx)
    requires !Holds(x)
    ensures TxOk(h, db, x)
  {
  }

  lemma MemberOk(h: Hash, db: Db, i: nat)
    requires Inv(h, db) && i in db.txs
    ensures TxOk(h, db, db.txs[i])
    ensures Holds(db.txs[i]) ==> !HeldByOther(db, db.txs[i].tenant, i)
  {
  }

  lemma AdvancedOk(h: Hash, db: Db, x: Tx)
    requires TxOk(h, db, x) && x.phase == Inserted
    ensures x.pending != [] && TxOk(h, db, x.(phase := Holding, view := HeadAfter(x.pending[|x.pending| - 1])))
  {
  }

  // --- Runs ---

  // Any number of transactions over any number of tenants, interleaved step by step.
  ghost predicate Execution(h: Hash, states: seq<Db>, steps: seq<Step>) {
    && |states| == |steps| + 1
    && states[0] == EMPTY
    && forall k :: 0 <= k < |steps| ==> Apply(h, states[k], steps[k]) == Some(states[k + 1])
  }

  lemma {:induction false} ReachableInv(h: Hash, states: seq<Db>, steps: seq<Step>, k: nat)
    requires Execution(h, states, steps) && k < |states|
    ensures Inv(h, states[k]) && FreshUntilHead(states[k])
    decreases k
  {
    if k == 0 {
      forall t ensures CommittedOk(h, EMPTY, t) { }
    } else {
      ReachableInv(h, states, steps, k - 1);
      assert Apply(h, states[k - 1], steps[k - 1]) == Some(states[k - 1 + 1]);
      InvStep(h, states[k - 1], steps[k - 1]);
    }
  }

  // list_all_ordered: the tenant's rows ORDER BY sequence.
  predicate BySequence(a: AuditEvent, b: AuditEvent) { a.fields.sequence < b.fields.sequence }

  function ListAllOrdered(db: Db, t: Uuid): seq<AuditEvent> { Sort(Rows(db, t), BySequence) }

  lemma OrderedIsCommitOrder(h: Hash, db: Db, t: Uuid)
    requires Inv(h, db)
    ensures ListAllOrdered(db, t) == Rows(db, t)
    ensures forall i :: 0 <= i < |Rows(db, t)| ==> Rows(db, t)[i].fields.sequence == i + 1
  {
    assert CommittedOk(h, db, t);
    SequencesBelow(h, Rows(db, t), HeadRow(db, t));
    SortOfSorted(Rows(db, t), BySequence);
  }

  // Main result: in every state of every execution, each tenant's committed sequences are exactly
  // 1..n, and whatever verdict satisfies verify_chain's contract on the stored rows and head is ok.
  lemma CommittedChainsVerify(h: Hash, states: seq<Db>, steps: seq<Step>, k: nat, t: Uuid, r: VerificationResult)
    requires Execution(h, states, steps) && k < |states|
    requires Verdict(h, ListAllOrdered(states[k], t), HeadRow(states[k], t), r)
    ensures forall i :: 0 <= i < |ListAllOrdered(states[k], t)| ==> ListAllOrdered(states[k], t)[i].fields.sequence == i + 1
    ensures r == VerificationResult(true, |Rows(states[k], t)|, None, None)
  {
    ReachableInv(h, states, steps, k);
    OrderedIsCommitOrder(h, states[k], t);
    assert CommittedOk(h, states[k], t);
    hide WellFormed, HeadConsistent;
    VerifiedVerdict(h, Rows(states[k], t), HeadRow(states[k], t), r);
  }

  lemma VerifiedVerdict(h: Hash, events: seq<AuditEvent>, head: Option<ChainHead>, r: VerificationResult)
    requires Verifies(h, events, head) && Verdict(h, events, head, r)
    ensures r == VerificationResult(true, |events|, None, None)
  {
  }

  // Committed rows are never changed, removed or inserted before others.
  lemma {:induction false} AppendOnly(h: Hash, states: seq<Db>, steps: seq<Step>, i: nat, j: nat, t: Uuid)
    requires Execution(h, states, steps) && i <= j < |states|
    ensures Rows(states[i], t) <= Rows(states[j], t)
    decreases j - i
  {
    if i < j {
      AppendOnly(h, states, steps, i, j - 1, t);
      hide HeldByOther, UniqueViolation, NextEvent;
      assert Apply(h, states[j - 1], steps[j - 1]) == Some(states[j - 1 + 1]);
    }
  }

  // VerifyTenantChain reads the events and the head in two statements. Read at different committed
  // states, they agree exactly when no event of the tenant was committed in between.
  lemma VerifierReadSkew(h: Hash, states: seq<Db>, steps: seq<Step>, i: nat, j: nat, t: Uuid)
    requires Execution(h, states, steps) && i <= j < |states| && t in states[j].audit.heads
    ensures Verifies(h, ListAllOrdered(states[i], t), HeadRow(states[j], t)) <==> Rows(states[i], t) == Rows(states[j], t)
  {
    ReachableInv(h, states, steps, i);
    ReachableInv(h, states, steps, j);
    AppendOnly(h, states, steps, i, j, t);
    OrderedIsCommitOrder(h, states[i], t);
    assert CommittedOk(h, states[i], t) && CommittedOk(h, states[j], t);
    hide WellFormed;
  }

  // A run in which they do not: the first event of a tenant is committed between the two reads.
  ghost function FirstRecord(h: Hash, r: Request, id: Uuid, now: UtcTime): seq<Step> {
    [Begin(0, r.actor.tenantId), SelectHead(0), InsertHead(0), AddEvent(0, r, id, now), AdvanceHead(0), Commit(0)]
  }

  ghost function FirstTx(h: Hash, r: Request, id: Uuid, now: UtcTime, k: nat): Tx
    requires 1 <= k <= 6
  {
    var t := r.actor.tenantId;
    var empty := ChainHead(t, 0, None);
    var e := NextEvent(h, empty, r, id, now);
    if k == 1 then Tx(t, Begun, false, empty, [])
    else if k == 2 then Tx(t, NoHead, false, empty, [])
    else if k == 3 then Tx(t, Holding, true, empty, [])
    else if k == 4 then Tx(t, Inserted, true, empty, [e])
    else Tx(t, if k == 5 then Holding else Closed, true, HeadAfter(e), [e])
  }

  ghost function FirstState(h: Hash, r: Request, id: Uuid, now: UtcTime, k: nat): Db
    requires k <= 6
  {
    if k == 0 then EMPTY
    else Db(if k < 6 then NO_ROWS else Appended(NO_ROWS, NextEvent(h, ChainHead(r.actor.tenantId, 0, None), r, id, now)),
            map[0 := FirstTx(h, r, id, now, k)])
  }

  lemma FirstHeadStep(h: Hash, r: Request, id: Uuid, now: UtcTime, k: nat)
    requires k < 3
    ensures Apply(h, FirstState(h, r, id, now, k), FirstRecord(h, r, id, now)[k]) == Some(FirstState(h, r, id, now, k + 1))
  {
    hide NextEvent, HeadAfter;
    assert !HeldByOther(FirstState(h, r, id, now, k), r.actor.tenantId, 0);
    assert FirstState(h, r, id, now, k).txs[0 := FirstTx(h, r, id, now, k + 1)] == FirstState(h, r, id, now, k + 1).txs;
  }

  lemma FirstEventStep(h: Hash, r: Request, id: Uuid, now: UtcTime, k: nat)
    requires 3 <= k < 5
    ensures Apply(h, FirstState(h, r, id, now, k), FirstRecord(h, r, id, now)[k]) == Some(FirstState(h, r, id, now, k + 1))
  {
    hide NextEvent, HeadAfter, HeldByOther;
    var e := NextEvent(h, ChainHead(r.actor.tenantId, 0, None), r, id, now);
    assert [] + [e] == [e];
    assert FirstState(h, r, id, now, k).txs[0 := FirstTx(h, r, id, now, k + 1)] == FirstState(h, r, id, now, k + 1).txs;
  }

  lemma FirstCommitStep(h: Hash, r: Request, id: Uuid, now: UtcTime)
    ensures Apply(h, FirstState(h, r, id, now, 5), FirstRecord(h, r, id, now)[5]) == Some(FirstState(h, r, id, now, 6))
  {
    hide NextEvent, HeldByOther, UniqueViolation, Violates;
    var e := NextEvent(h, ChainHead(r.actor.tenantId, 0, None), r, id, now);
    NextEventTenant(h, ChainHead(r.actor.tenantId, 0, None), r, id, now);
    SingleViolation(NO_ROWS, e);
    NothingViolated(e);
    assert FirstState(h, r, id, now, 5).txs[0 := FirstTx(h, r, id, now, 6)] == FirstState(h, r, id, now, 6).txs;
  }

  lemma NothingViolated(e: AuditEvent)
    ensures !Violates(NO_ROWS, e)
  {
  }

  lemma CommitBetweenReads(h: Hash, r: Request, id: Uuid, now: UtcTime) returns (states: seq<Db>, steps: seq<Step>)
    ensures |steps| == 6 && Execution(h, states, steps) && r.actor.tenantId in states[6].audit.heads
    ensures !Verifies(h, ListAllOrdered(states[0], r.actor.tenantId), HeadRow(states[6], r.actor.tenantId))
  {
    hide NextEvent, HeadAfter, Verifies, Apply;
    steps := FirstRecord(h, r, id, now);
    states := seq(7, (k: nat) requires k < 7 => FirstState(h, r, id, now, k));
    forall k: nat | k < 6 ensures Apply(h, states[k], steps[k]) == Some(states[k + 1]) {
      if k < 3 { FirstHeadStep(h, r, id, now, k); } else if k < 5 { FirstEventStep(h, r, id, now, k); } else { FirstCommitStep(h, r, id, now); }
    }
    NextEventTenant(h, ChainHead(r.actor.tenantId, 0, None), r, id, now);
    assert |Rows(states[6], r.actor.tenantId)| == 1;
    VerifierReadSkew(h, states, steps, 0, 6, r.actor.tenantId);
  }

  // --- Every committed row was asked for ---

  // Before step k some transaction recorded the row for a request of the tenant.
  ghost predicate AskedFor(steps: seq<Step>, k: nat, t: Uuid, e: AuditEvent) {
    exists j: nat :: j < k && j < |steps| && steps[j].AddEvent? && steps[j].request.actor.tenantId == t
      && Describes(e, steps[j].request, steps[j].id, steps[j].now)
  }

  ghost predicate AllAskedFor(db: Db, steps: seq<Step>, k: nat) {
    && (forall t, i: nat :: i < |Rows(db, t)| ==> AskedFor(steps, k, t, Rows(db, t)[i]))
    && (forall x, i: nat :: x in db.txs && i < |db.txs[x].pending| ==> AskedFor(steps, k, db.txs[x].tenant, db.txs[x].pending[i]))
  }

  // Rows and pending rows after a step are rows and pending rows from before, or the one it adds.
  ghost predicate NothingElse(h: Hash, db: Db, s: Step, db': Db) {
    && (forall t, i: nat :: i < |Rows(db', t)| ==>
          Rows(db', t)[i] in Rows(db, t) ||
          (exists x :: x in db.txs && db.txs[x].tenant == t && Rows(db', t)[i] in db.txs[x].pending))
    && (forall x, i: nat :: x in db'.txs && i < |db'.txs[x].pending| ==>
          (x in db.txs && db.txs[x].tenant == db'.txs[x].tenant && db'.txs[x].pending[i] in db.txs[x].pending) ||
          (s.AddEvent? && s.request.actor.tenantId == db'.txs[x].tenant && Describes(db'.txs[x].pending[i], s.request, s.id, s.now)))
  }

  lemma NextIsDescribed(h: Hash, view: ChainHead, r: Request, id: Uuid, now: UtcTime)
    ensures Describes(NextEvent(h, view, r, id, now), r, id, now)
  {
    hide CanonicalEventBytes, EntryHash;
  }

  lemma StepAddsNothingElse(h: Hash, db: Db, s: Step)
    requires Apply(h, db, s).Some?
    ensures NothingElse(h, db, s, Apply(h, db, s).value)
  {
    hide HeldByOther, UniqueViolation, NextEvent, HeadAfter, Describes;
    if s.AddEvent? { NextIsDescribed(h, db.txs[s.tx].view, s.request, s.id, s.now); }
  }

  lemma AskedForStays(h: Hash, db: Db, db': Db, steps: seq<Step>, k: nat)
    requires k < |steps| && AllAskedFor(db, steps, k) && NothingElse(h, db, steps[k], db')
    ensures AllAskedFor(db', steps, k + 1)
  {
    hide Rows, Describes;
    forall t, e | AskedFor(steps, k, t, e) ensures AskedFor(steps, k + 1, t, e) {
      var j: nat :| j < k && j < |steps| && steps[j].AddEvent? && steps[j].request.actor.tenantId == t
        && Describes(e, steps[j].request, steps[j].id, steps[j].now);
    }
    forall t, i: nat | i < |Rows(db', t)| ensures AskedFor(steps, k + 1, t, Rows(db', t)[i]) {
      var e := Rows(db', t)[i];
      if e in Rows(db, t) {
        var m: nat :| m < |Rows(db, t)| && Rows(db, t)[m] == e;
      } else {
        var x :| x in db.txs && db.txs[x].tenant == t && e in db.txs[x].pending;
        var m: nat :| m < |db.txs[x].pending| && db.txs[x].pending[m] == e;
      }
    }
    forall x, i: nat | x in db'.txs && i < |db'.txs[x].pending| ensures AskedFor(steps, k + 1, db'.txs[x].tenant, db'.txs[x].pending[i]) {
      var e := db'.txs[x].pending[i];
      if x in db.txs && db.txs[x].tenant == db'.txs[x].tenant && e in db.txs[x].pending {
        var m: nat :| m < |db.txs[x].pending| && db.txs[x].pending[m] == e;
      }
    }
  }

  // Main result: in every state of every execution each committed row describes a request that a
  // transaction of its tenant recorded, with its actor, session, target, outcome, metadata, id and time.
  lemma {:induction false} CommittedRowsDescribe(h: Hash, states: seq<Db>, steps: seq<Step>, k: nat)
    requires Execution(h, states, steps) && k < |states|
    ensures AllAskedFor(states[k], steps, k)
    decreases k
  {
    hide Apply, AllAskedFor, NothingElse;
    if k == 0 {
      EmptyAskedFor(steps);
    } else {
      CommittedRowsDescribe(h, states, steps, k - 1);
      assert Apply(h, states[k - 1], steps[k - 1]) == Some(states[k - 1 + 1]);
      StepAddsNothingElse(h, states[k - 1], steps[k - 1]);
      AskedForStays(h, states[k - 1], states[k], steps, k - 1);
    }
  }

  lemma EmptyAskedFor(steps: seq<Step>)
    ensures AllAskedFor(EMPTY, steps, 0)
  {
  }

  // --- A transaction that meets no other is the sequential record ---

  ghost function RunSteps(h: Hash, db: Db, steps: seq<Step>): Option<Db>
    decreases |steps|
  {
    if steps == [] then Some(db)
    else
      match Apply(h, db, steps[0])
      case None => None
      case Some(db') => RunSteps(h, db', steps[1..])
  }

  ghost function RecordSteps(db: Db, i: nat, r: Request, id: Uuid, now: UtcTime): seq<Step> {
    [Begin(i, r.actor.tenantId), SelectHead(i)]
    + (if r.actor.tenantId in db.audit.heads then [] else [InsertHead(i)])
    + [AddEvent(i, r, id, now), AdvanceHead(i), Commit(i)]
  }

  lemma Steps2(h: Hash, db: Db, a: Step, b: Step, rest: seq<Step>)
    requires Apply(h, db, a).Some? && Apply(h, Apply(h, db, a).value, b).Some?
    ensures RunSteps(h, db, [a, b] + rest) == RunSteps(h, Apply(h, Apply(h, db, a).value, b).value, rest)
  {
    hide Apply;
    var s := [a, b] + rest;
    assert s[1..] == [b] + rest && s[1..][1..] == rest;
  }

  // While no other transaction holds the tenant's head, nothing blocks, and the committed ledger
  // becomes what `record` computes on it.
  lemma SoloRecordRefines(h: Hash, lower: string -> string, db: Db, i: nat, r: Request, id: Uuid, now: UtcTime)
    requires i !in db.txs && !HeldByOther(db, r.actor.tenantId, i)
    requires r.action in AUDIT_ACTIONS && !Offending(SafeMetadata(r.metadata), lower)
    ensures var done := RunSteps(h, db, RecordSteps(db, i, r, id, now));
            && done.Some?
            && done.value.audit == RecordStep(h, lower, db.audit, r, id, now).0
  {
    hide NextEvent, Violates, Offending, RecordStep, HeldByOther;
    var t := r.actor.tenantId;
    var rest, all := [AddEvent(i, r, id, now), AdvanceHead(i), Commit(i)], RecordSteps(db, i, r, id, now);
    var begun := Apply(h, db, Begin(i, t)).value;
    SameOthers(db, i, begun.txs[i], t);
    var seen := Apply(h, begun, SelectHead(i)).value;
    if t in db.audit.heads {
      Steps2(h, db, Begin(i, t), SelectHead(i), rest);
      assert all == [Begin(i, t), SelectHead(i)] + rest;
      LockedTail(h, lower, db, seen, i, r, id, now);
    } else {
      SameOthers(begun, i, seen.txs[i], t);
      var locked := Apply(h, seen, InsertHead(i)).value;
      Steps2(h, db, Begin(i, t), SelectHead(i), [InsertHead(i)] + rest);
      assert all == [Begin(i, t), SelectHead(i)] + ([InsertHead(i)] + rest);
      assert ([InsertHead(i)] + rest)[1..] == rest;
      LockedTail(h, lower, db, locked, i, r, id, now);
    }
  }

  lemma SameOthers(db: Db, i: nat, x: Tx, t: Uuid)
    ensures HeldByOther(db.(txs := db.txs[i := x]), t, i) == HeldByOther(db, t, i)
  {
    var db' := db.(txs := db.txs[i := x]);
    if HeldByOther(db, t, i) {
      var j :| j in db.txs && j != i && Holds(db.txs[j]) && db.txs[j].tenant == t;
      assert j in db'.txs && db'.txs[j] == db.txs[j];
    }
  }

  lemma LockedTail(h: Hash, lower: string -> string, db: Db, locked: Db, i: nat, r: Request, id: Uuid, now: UtcTime)
    requires locked.audit == db.audit && i in locked.txs
    requires r.action in AUDIT_ACTIONS && !Offending(SafeMetadata(r.metadata), lower)
    requires var x, t := locked.txs[i], r.actor.tenantId;
             x.tenant == t && x.phase == Holding && x.pending == [] && x.view == HeadOrGenesis(LedgerOf(db.audit, t), t)
    ensures var done := RunSteps(h, locked, [AddEvent(i, r, id, now), AdvanceHead(i), Commit(i)]);
            && done.Some?
            && done.value.audit == RecordStep(h, lower, db.audit, r, id, now).0
  {
    hide NextEvent, Violates, Offending, RecordSteps, HeldByOther, UniqueViolation, Appended, HeadAfter, Apply;
    var x := locked.txs[i];
    var e := NextEvent(h, x.view, r, id, now);
    NextEventTenant(h, x.view, r, id, now);
    AddAndAdvance(h, locked, i, r, id, now);
    var ready := Apply(h, Apply(h, locked, AddEvent(i, r, id, now)).value, AdvanceHead(i)).value;
    Steps2(h, locked, AddEvent(i, r, id, now), AdvanceHead(i), [Commit(i)]);
    assert [AddEvent(i, r, id, now), AdvanceHead(i)] + [Commit(i)] == [AddEvent(i, r, id, now), AdvanceHead(i), Commit(i)];
    SingleViolation(db.audit, e);
    CommitOne(h, ready, i, e);
    assert [Commit(i)][1..] == [];
  }

  lemma AddAndAdvance(h: Hash, db: Db, i: nat, r: Request, id: Uuid, now: UtcTime)
    requires i in db.txs && db.txs[i].tenant == r.actor.tenantId && db.txs[i].phase == Holding && db.txs[i].pending == []
    ensures var added := Apply(h, db, AddEvent(i, r, id, now));
            && added.Some? && Apply(h, added.value, AdvanceHead(i)).Some?
            && var ready, e := Apply(h, added.value, AdvanceHead(i)).value, NextEvent(h, db.txs[i].view, r, id, now);
               && ready.audit == db.audit && i in ready.txs
               && ready.txs[i] == Tx(r.actor.tenantId, Holding, db.txs[i].created, HeadAfter(e), [e])
  {
    hide NextEvent, HeadAfter;
  }

  lemma CommitOne(h: Hash, db: Db, i: nat, e: AuditEvent)
    requires i in db.txs && db.txs[i].phase == Holding && db.txs[i].pending == [e]
    requires e.fields.tenantId == db.txs[i].tenant && db.txs[i].view == HeadAfter(e)
    ensures var done := Apply(h, db, Commit(i));
            && done.Some?
            && done.value.audit == if UniqueViolation(db.audit, db.txs[i].tenant, [e]) then db.audit else Appended(db.audit, e)
  {
    hide UniqueViolation;
  }

  lemma SingleViolation(rows: AuditRows, e: AuditEvent)
    ensures UniqueViolation(rows, e.fields.tenantId, [e]) <==> Violates(rows, e)
  {
    hide Clashes, IdTaken;
    var events := LedgerOf(rows, e.fields.tenantId).events;
    assert events + [e][..0] == events && !HasId([e][..0], e.id);
    if Violates(rows, e) { assert Clashes(events + [e][..0], [e][0]) || IdTaken(rows.events, [e][0].id); }
  }
}
