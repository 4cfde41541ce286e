// The audit ledger tells the same story as the secret tables, because each change and its event
// commit together.
module SecretLedger {
  import opened Wrappers
  import opened Text
  import opened Json
  import opened AuditHashing
  import opened AuditService
  import opened CipherContexts
  import opened SecretStore

  datatype Change = CreatedSecret | RotatedTo(newVersion: int) | DeletedSecret | Unreadable

  function Field(es: seq<Entry>, key: string): Option<Json> {
    if es == [] then None else if es[0].key == key then Some(es[0].value) else Field(es[1..], key)
  }

  // What an event says happened to secret `id`, if anything.
  function ChangeOf(action: string, target: Option<Uuid>, metadata: seq<Entry>, id: Uuid): seq<Change> {
    if target != Some(id) then []
    else if action == "secret.created" then [CreatedSecret]
    else if action == "secret.deleted" then [DeletedSecret]
    else if action == "secret.rotated" then
      match Field(metadata, "new_version")
      case Some(Int(n)) => [RotatedTo(n)]
      case _ => [Unreadable]
    else []
  }

  function ChangeOfEvent(f: EventFields, id: Uuid): seq<Change> { ChangeOf(f.action, f.targetId, f.metadata, id) }

  function ChangeOfRequest(r: Request, id: Uuid): seq<Change> { ChangeOf(r.action, r.targetId, SafeMetadata(r.metadata), id) }

  // The changes of one secret in ledger order.
  function Changes(events: seq<AuditEvent>, id: Uuid): seq<Change> {
    if events == [] then []
    else Changes(events[..|events| - 1], id) + ChangeOfEvent(events[|events| - 1].fields, id)
  }

  // Created, then rotated to 2, 3, ..., n, then deleted if it is.
  function Story(currentVersion: int, deleted: bool): seq<Change>
    requires currentVersion >= 1
  {
    [CreatedSecret] + seq(currentVersion - 1, i => RotatedTo(i + 2)) + if deleted then [DeletedSecret] else []
  }

  ghost predicate TellsStory(t: Tables, tenant: Uuid, id: Uuid) {
    if id in t.secrets && t.secrets[id].tenant == tenant then
      t.secrets[id].currentVersion >= 1 &&
      Changes(LedgerOf(t.audit, tenant).events, id) == Story(t.secrets[id].currentVersion, t.secrets[id].deleted)
    else Changes(LedgerOf(t.audit, tenant).events, id) == []
  }

  ghost predicate Agree(t: Tables) { forall tenant, id :: TellsStory(t, tenant, id) }

  // --- One recorded event ---

  lemma RecordingAppends(e: Env, t: Tables, r: Request, s: Stamp)
    requires Recording(e, t, r, s).Some?
    ensures var t', tenant := Recording(e, t, r, s).value, r.actor.tenantId;
            && t'.secrets == t.secrets
            && (forall x :: x != tenant ==> LedgerOf(t'.audit, x) == LedgerOf(t.audit, x))
            && exists ev: AuditEvent ::
                 && LedgerOf(t'.audit, tenant).events == LedgerOf(t.audit, tenant).events + [ev]
                 && ev.fields.action == r.action && ev.fields.targetId == r.targetId && ev.fields.metadata == SafeMetadata(r.metadata)
  {
    hide EntryHash, CanonicalEventBytes, Violates, Offending;
    var l := LedgerOf(t.audit, r.actor.tenantId);
    var ev := NextEvent(e.hash, HeadOrGenesis(l, r.actor.tenantId), r, s.id, s.now);
    NextEventTenant(e.hash, HeadOrGenesis(l, r.actor.tenantId), r, s.id, s.now);
    assert LedgerOf(Recording(e, t, r, s).value.audit, r.actor.tenantId).events == l.events + [ev];
  }

  lemma ChangesAppend(events: seq<AuditEvent>, ev: AuditEvent, id: Uuid)
    ensures Changes(events + [ev], id) == Changes(events, id) + ChangeOfEvent(ev.fields, id)
  {
    assert (events + [ev])[..|events|] == events;
  }

  lemma RecordedChange(e: Env, t: Tables, r: Request, s: Stamp, tenant: Uuid, id: Uuid)
    requires Recording(e, t, r, s).Some?
    ensures var t' := Recording(e, t, r, s).value;
            Changes(LedgerOf(t'.audit, tenant).events, id) ==
            Changes(LedgerOf(t.audit, tenant).events, id) + if tenant == r.actor.tenantId then ChangeOfRequest(r, id) else []
  {
    hide Recording, LedgerOf;
    RecordingAppends(e, t, r, s);
    var t' := Recording(e, t, r, s).value;
    if tenant == r.actor.tenantId {
      var ev: AuditEvent :| LedgerOf(t'.audit, tenant).events == LedgerOf(t.audit, tenant).events + [ev] &&
        ev.fields.action == r.action && ev.fields.targetId == r.targetId && ev.fields.metadata == SafeMetadata(r.metadata);
      ChangesAppend(LedgerOf(t.audit, tenant).events, ev, id);
    }
  }

  lemma SameSecretsTell(t: Tables, t': Tables, tenant: Uuid, id: Uuid)
    requires TellsStory(t, tenant, id) && Changes(LedgerOf(t'.audit, tenant).events, id) == Changes(LedgerOf(t.audit, tenant).events, id)
    requires (id in t'.secrets <==> id in t.secrets) && (id in t.secrets ==> t'.secrets[id] == t.secrets[id])
    ensures TellsStory(t', tenant, id)
  {
  }

  // A recorded event that is about no change of any secret.
  lemma NeutralRecording(e: Env, t: Tables, r: Request, s: Stamp)
    requires Agree(t) && Recording(e, t, r, s).Some? && r.action in {"secret.revealed", "access.denied"}
    ensures Agree(Recording(e, t, r, s).value)
  {
    hide Recording, LedgerOf, TellsStory, Changes, ChangeOfRequest;
    var t' := Recording(e, t, r, s).value;
    RecordingAppends(e, t, r, s);
    forall tenant, id ensures TellsStory(t', tenant, id) {
      RecordedChange(e, t, r, s, tenant, id);
      NeutralRequest(r, id);
      assert TellsStory(t, tenant, id);
      NothingAdded(Changes(LedgerOf(t.audit, tenant).events, id));
      SameSecretsTell(t, t', tenant, id);
    }
  }

  lemma NeutralRequest(r: Request, id: Uuid)
    requires r.action in {"secret.revealed", "access.denied"}
    ensures ChangeOfRequest(r, id) == []
  {
    var a, b := "secret.revealed", "access.denied";
    assert |a| == 15 && |b| == 13 && |"secret.created"| == 14 && |"secret.deleted"| == 14 && |"secret.rotated"| == 14;
  }

  lemma DenialAgrees(e: Env, t: Tables, actor: ActorContext, d: Access, s: Stamp)
    requires Agree(t) && d.Denied?
    ensures Agree(DenialStep(e, t, actor, d, s))
  {
    hide Recording, RecordIn, Agree;
    DenialIsRecording(e, t, actor, d, s);
    if DenialStep(e, t, actor, d, s) != t {
      var r: Request :| r.action == "access.denied" && Recording(e, t, r, s) == Some(DenialStep(e, t, actor, d, s));
      NeutralRecording(e, t, r, s);
    }
  }

  lemma DenialIsRecording(e: Env, t: Tables, actor: ActorContext, d: Access, s: Stamp)
    requires d.Denied?
    ensures var t' := DenialStep(e, t, actor, d, s);
            t' == t || exists r: Request :: r.action == "access.denied" && Recording(e, t, r, s) == Some(t')
  {
    hide RecordIn;
    if d.audited {
      var metadata := if d.attempted.Some? then [Entry("attempted_action", Str(d.attempted.value))] else [];
      var kind := if d.targetType.Some? && d.targetType.value != "" then d.targetType.value else "vault";
      var r := Request(actor, "access.denied", kind, d.targetId, "denied", Some(metadata));
      if RecordIn(e, t.audit, r, s).Some? { assert Recording(e, t, r, s) == Some(DenialStep(e, t, actor, d, s)); }
    }
  }

  // The event of a change to secret `id`, whose row becomes `after`, continues its story.
  ghost predicate Continues(t: Tables, r: Request, id: Uuid, after: Secret) {
    && r.targetId == Some(id) && after.tenant == r.actor.tenantId && after.currentVersion >= 1
    && if id in t.secrets then
         && t.secrets[id].tenant == after.tenant && t.secrets[id].currentVersion >= 1
         && Story(t.secrets[id].currentVersion, t.secrets[id].deleted) + ChangeOfRequest(r, id) == Story(after.currentVersion, after.deleted)
       else ChangeOfRequest(r, id) == Story(after.currentVersion, after.deleted)
  }

  lemma StoryGoesOn(t: Tables, t': Tables, r: Request, id: Uuid, after: Secret)
    requires TellsStory(t, after.tenant, id) && Continues(t, r, id, after)
    requires id in t'.secrets && t'.secrets[id] == after
    requires Changes(LedgerOf(t'.audit, after.tenant).events, id) == Changes(LedgerOf(t.audit, after.tenant).events, id) + ChangeOfRequest(r, id)
    ensures TellsStory(t', after.tenant, id)
  {
    hide Changes, LedgerOf, Story, ChangeOfRequest;
    var c := ChangeOfRequest(r, id);
    assert [] + c == c;
  }

  lemma OthersUnchanged(t: Tables, t': Tables, r: Request, id: Uuid, after: Secret, tenant: Uuid, x: Uuid)
    requires TellsStory(t, tenant, x) && Continues(t, r, id, after) && (tenant != after.tenant || x != id)
    requires t'.secrets == t.secrets[id := after]
    requires Changes(LedgerOf(t'.audit, tenant).events, x) == Changes(LedgerOf(t.audit, tenant).events, x)
    ensures TellsStory(t', tenant, x)
  {
    hide Changes, LedgerOf, Story, ChangeOfRequest;
  }

  lemma AboutOneSecret(r: Request, id: Uuid, x: Uuid)
    requires r.targetId == Some(id) && x != id
    ensures ChangeOfRequest(r, x) == []
  {
  }

  lemma ChangeRecordedAt(e: Env, t: Tables, mid: Tables, r: Request, s: Stamp, id: Uuid, after: Secret, tenant: Uuid, x: Uuid)
    requires TellsStory(t, tenant, x) && Recording(e, mid, r, s).Some? && Continues(t, r, id, after)
    requires mid.secrets == t.secrets[id := after] && mid.audit == t.audit
    ensures TellsStory(Recording(e, mid, r, s).value, tenant, x)
  {
    hide Recording, Changes, TellsStory, ChangeOfRequest, RecordStep, Story;
    var t' := Recording(e, mid, r, s).value;
    RecordingAppends(e, mid, r, s);
    RecordedChange(e, mid, r, s, tenant, x);
    assert LedgerOf(mid.audit, tenant) == LedgerOf(t.audit, tenant);
    hide LedgerOf;
    if tenant == after.tenant && x == id {
      StoryGoesOn(t, t', r, id, after);
    } else {
      if x != id { AboutOneSecret(r, id, x); }
      NothingAdded(Changes(LedgerOf(t.audit, tenant).events, x));
      OthersUnchanged(t, t', r, id, after, tenant, x);
    }
  }

  lemma NothingAdded(c: seq<Change>)
    ensures c + [] == c
  {
  }

  lemma ChangeRecorded(e: Env, t: Tables, mid: Tables, r: Request, s: Stamp, id: Uuid, after: Secret)
    requires Agree(t) && Recording(e, mid, r, s).Some? && Continues(t, r, id, after)
    requires mid.secrets == t.secrets[id := after] && mid.audit == t.audit
    ensures Agree(Recording(e, mid, r, s).value)
  {
    hide Recording, TellsStory, Continues;
    var t' := Recording(e, mid, r, s).value;
    forall tenant, x ensures TellsStory(t', tenant, x) {
      assert TellsStory(t, tenant, x);
      ChangeRecordedAt(e, t, mid, r, s, id, after, tenant, x);
    }
  }

  lemma CreateAgrees(e: Env, t: Tables, op: Op)
    requires op.Create? && Agree(t)
    ensures Agree(CreateStep(e, t, op).0)
  {
    hide Recording, Agree, Seal, DenialStep, LedgerOf;
    if op.access.Denied? {
      DenialAgrees(e, t, op.actor, op.access, op.stamp);
    } else if CreateStep(e, t, op).1 == Created && CreateStep(e, t, op).0 != t {
      var s := Secret(op.actor.tenantId, op.vault, op.name, 1, false);
      var t1 := t.(secrets := t.secrets[op.secretId := s], names := t.names + {(op.vault, op.name)});
      var row := Seal(e, t1, s.tenant, s.vault, op.secretId, 1, op.plaintext, op.nonce).row;
      var t2 := t1.(versions := t1.versions[(op.secretId, 1) := row]);
      var r := SecretEvent(op.actor, "secret.created", op.secretId, [VaultEntry(op.vault)]);
      assert Story(1, false) == [CreatedSecret];
      ChangeRecorded(e, t, t2, r, op.stamp, op.secretId, s);
    }
  }

  lemma RotateAgrees(e: Env, t: Tables, op: Op)
    requires op.Rotate? && Agree(t)
    ensures Agree(RotateStep(e, t, op).0)
  {
    hide Recording, Seal, DenialStep, LedgerOf, Agree;
    if op.access.Denied? {
      DenialAgrees(e, t, op.actor, op.access, op.stamp);
    } else if RotateStep(e, t, op).0 != t {
      AgreePositive(t, op.secretId);
      var old' := t.secrets[op.secretId];
      var next := old'.currentVersion + 1;
      var row := Seal(e, t, old'.tenant, old'.vault, op.secretId, next, op.plaintext, op.nonce).row;
      var t1 := t.(versions := t.versions[(op.secretId, next) := row], secrets := t.secrets[op.secretId := old'.(currentVersion := next)]);
      var r := RotationEvent(op.actor, op.vault, op.secretId, next, row.dekVersion);
      NewVersionField(op.vault, next, row.dekVersion);
      StoryRotates(old'.currentVersion);
      ChangeRecorded(e, t, t1, r, op.stamp, op.secretId, old'.(currentVersion := next));
    }
  }

  lemma AgreePositive(t: Tables, id: Uuid)
    requires Agree(t) && id in t.secrets
    ensures t.secrets[id].currentVersion >= 1
  {
    assert TellsStory(t, t.secrets[id].tenant, id);
  }

  lemma NewVersionField(vault: Uuid, n: int, dekVersion: int)
    ensures Field([VaultEntry(vault), Entry("new_version", Int(n)), Entry("dek_version", Int(dekVersion))], "new_version") == Some(Int(n))
  {
    var es := [VaultEntry(vault), Entry("new_version", Int(n)), Entry("dek_version", Int(dekVersion))];
    assert |"vault_id"| != |"new_version"|;
    assert es[1..][0] == Entry("new_version", Int(n));
  }

  lemma StoryRotates(n: int)
    requires n >= 1
    ensures Story(n, false) + [RotatedTo(n + 1)] == Story(n + 1, false)
  {
    assert seq(n, i => RotatedTo(i + 2)) == seq(n - 1, i => RotatedTo(i + 2)) + [RotatedTo(n + 1)];
  }

  lemma DeleteAgrees(e: Env, t: Tables, op: Op)
    requires op.Delete? && Agree(t)
    ensures Agree(DeleteStep(e, t, op).0)
  {
    hide Recording, DenialStep, LedgerOf, Agree;
    if op.access.Denied? {
      DenialAgrees(e, t, op.actor, op.access, op.stamp);
    } else if DeleteStep(e, t, op).0 != t {
      AgreePositive(t, op.secretId);
      var s := t.secrets[op.secretId];
      var t1 := t.(secrets := t.secrets[op.secretId := s.(deleted := true)]);
      var r := SecretEvent(op.actor, "secret.deleted", op.secretId, [VaultEntry(op.vault)]);
      assert Story(s.currentVersion, false) + [DeletedSecret] == Story(s.currentVersion, true);
      ChangeRecorded(e, t, t1, r, op.stamp, op.secretId, s.(deleted := true));
    }
  }

  lemma RevealAgrees(e: Env, t: Tables, op: Op)
    requires op.Reveal? && Agree(t)
    ensures Agree(RevealStep(e, t, op).0)
  {
    hide Recording, DenialStep, Agree, RevealValue;
    if op.access.Denied? {
      DenialAgrees(e, t, op.actor, op.access, op.stamp);
    } else {
      var r := RevealValue(e, t, op.actor.tenantId, op.vault, op.secretId, op.version);
      if r.Revealed? {
        var q := SecretEvent(op.actor, "secret.revealed", op.secretId, [VaultEntry(op.vault), Entry("version", Int(r.version))]);
        if Recording(e, t, q, op.stamp).Some? { NeutralRecording(e, t, q, op.stamp); }
      }
    }
  }

  lemma ProvisionAgrees(e: Env, t: Tables, op: Op)
    requires op.Provision? && Agree(t)
    ensures Agree(ProvisionStep(e, t, op).0)
  {
    var t' := ProvisionStep(e, t, op).0;
    forall tenant, id ensures TellsStory(t', tenant, id) { assert TellsStory(t, tenant, id); }
  }

  lemma StepAgrees(e: Env, t: Tables, op: Op)
    requires Agree(t)
    ensures Agree(Apply(e, t, op).0)
  {
    hide Agree, CreateStep, RotateStep, DeleteStep, RevealStep, ProvisionStep;
    match op
    case Provision(_, _, _) => ProvisionAgrees(e, t, op);
    case Create(_, _, _, _, _, _, _, _) => CreateAgrees(e, t, op);
    case Rotate(_, _, _, _, _, _, _) => RotateAgrees(e, t, op);
    case Delete(_, _, _, _, _, _) => DeleteAgrees(e, t, op);
    case Reveal(_, _, _, _, _, _) => RevealAgrees(e, t, op);
  }

  lemma {:induction false} RunAgrees(e: Env, ops: seq<Op>)
    ensures Agree(After(e, ops))
  {
    hide Agree, Apply;
    if ops == [] {
      EmptyAgrees();
    } else {
      RunAgrees(e, ops[..|ops| - 1]);
      StepAgrees(e, After(e, ops[..|ops| - 1]), ops[|ops| - 1]);
    }
  }

  lemma EmptyAgrees()
    ensures Agree(EMPTY)
  {
    forall tenant, id ensures TellsStory(EMPTY, tenant, id) { }
  }

  // Main result: in every committed state the ledger's events about a secret are one creation, the
  // rotations to 2, 3, ..., current_version in that order, and one deletion at the end exactly when
  // the secret is deleted; no other tenant's ledger has any.
  lemma LedgerMatchesStore(e: Env, ops: seq<Op>, tenant: Uuid, id: Uuid)
    ensures var t := After(e, ops);
            var changes := Changes(LedgerOf(t.audit, tenant).events, id);
            if id in t.secrets && t.secrets[id].tenant == tenant then
              var n, deleted := t.secrets[id].currentVersion, t.secrets[id].deleted;
              && n >= 1 && |changes| == n + (if deleted then 1 else 0)
              && changes[0] == CreatedSecret
              && (forall i :: 1 <= i < n ==> changes[i] == RotatedTo(i + 1))
              && (deleted ==> changes[n] == DeletedSecret)
            else changes == []
  {
    RunAgrees(e, ops);
    assert TellsStory(After(e, ops), tenant, id);
    hide After, Changes, LedgerOf;
  }

  ghost predicate AllVerify(h: Hash, rows: AuditRows) { forall tenant :: ChainOk(h, LedgerOf(rows, tenant)) }

  lemma RecordVerifies(e: Env, rows: AuditRows, r: Request, s: Stamp)
    requires AllVerify(e.hash, rows) && RecordIn(e, rows, r, s).Some?
    ensures AllVerify(e.hash, RecordIn(e, rows, r, s).value)
  {
    hide RecordStep, ChainOk, LedgerOf, NextEvent, IdTaken, HeadOrGenesis;
    RecordKeepsChain(e.hash, e.lower, rows, r, s.id, s.now);
    var rows' := RecordIn(e, rows, r, s).value;
    forall x ensures ChainOk(e.hash, LedgerOf(rows', x)) { assert ChainOk(e.hash, LedgerOf(rows, x)); }
  }

  lemma DenialRecords(e: Env, rows: AuditRows, actor: ActorContext, d: Access, s: Stamp)
    requires d.Denied?
    ensures var rows' := Denial(e, rows, actor, d, s);
            rows' == rows || exists r: Request :: RecordIn(e, rows, r, s) == Some(rows')
  {
    hide RecordIn;
  }

  // Each step leaves the audit rows alone or records one event.
  lemma StepRecords(e: Env, t: Tables, op: Op)
    ensures var rows := Apply(e, t, op).0.audit;
            rows == t.audit || exists r: Request, s: Stamp :: RecordIn(e, t.audit, r, s) == Some(rows)
  {
    hide RecordIn, Seal, RevealValue, Denial;
    if !op.Provision? && op.access.Denied? { DenialRecords(e, t.audit, op.actor, op.access, op.stamp); }
  }

  // Main result: every tenant's ledger verifies in every committed state.
  lemma {:induction false} LedgersVerify(e: Env, ops: seq<Op>)
    ensures AllVerify(e.hash, After(e, ops).audit)
  {
    hide AllVerify, RecordIn, Apply;
    if ops == [] {
      EmptyVerify(e.hash);
    } else {
      var t, op := After(e, ops[..|ops| - 1]), ops[|ops| - 1];
      LedgersVerify(e, ops[..|ops| - 1]);
      StepRecords(e, t, op);
      var rows := Apply(e, t, op).0.audit;
      if rows != t.audit {
        var r: Request, s: Stamp :| RecordIn(e, t.audit, r, s) == Some(rows);
        RecordVerifies(e, t.audit, r, s);
      }
    }
  }

  lemma EmptyVerify(h: Hash)
    ensures AllVerify(h, NO_ROWS)
  {
  }

  // --- What each use case leaves in the ledger ---

  // The row names the actor, the session, what was done to what, the outcome, the details, and when.
  ghost predicate Says(ev: AuditEvent, actor: ActorContext, action: string, targetType: string, target: Option<Uuid>, outcome: string,
                       metadata: seq<Entry>, s: Stamp) {
    && ev.id == s.id && ev.fields.occurredAt == s.now
    && ev.fields.tenantId == actor.tenantId && ev.fields.actorUserId == Some(actor.userId) && ev.fields.sessionId == Some(actor.sessionId)
    && ev.fields.action == action && ev.fields.targetType == targetType && ev.fields.targetId == target
    && ev.fields.outcome == outcome && ev.fields.metadata == metadata
  }

  // Exactly one row more in the tenant's ledger, behind the old ones, and none in any other.
  ghost predicate GrowsBy(h: Hash, rows: AuditRows, rows': AuditRows, tenant: Uuid, ev: AuditEvent) {
    && LedgerOf(rows', tenant).events == LedgerOf(rows, tenant).events + [ev]
    && NextInChain(h, LedgerOf(rows, tenant).events, ev)
    && forall t :: t != tenant ==> LedgerOf(rows', t) == LedgerOf(rows, t)
  }

  // Details of a successful use case: the vault, then what is its own.
  function Details(op: Op, r: Outcome): seq<Entry>
    requires !op.Provision?
  {
    [Entry("vault_id", Str(UuidText(op.vault)))] +
    (if r.Rotated? then [Entry("new_version", Int(r.version)), Entry("dek_version", Int(1))]
     else if r.Revealed? then [Entry("version", Int(r.version))] else [])
  }

  function ActionOf(op: Op): string
    requires !op.Provision?
  {
    match op
    case Create(_, _, _, _, _, _, _, _) => "secret.created"
    case Rotate(_, _, _, _, _, _, _) => "secret.rotated"
    case Delete(_, _, _, _, _, _) => "secret.deleted"
    case Reveal(_, _, _, _, _, _) => "secret.revealed"
  }

  lemma RecordInSays(e: Env, rows: AuditRows, r: Request, s: Stamp)
    requires ChainOk(e.hash, LedgerOf(rows, r.actor.tenantId)) && RecordIn(e, rows, r, s).Some?
    ensures var rows' := RecordIn(e, rows, r, s).value;
            var events := LedgerOf(rows', r.actor.tenantId).events;
            && events != []
            && var ev := events[|events| - 1];
               && GrowsBy(e.hash, rows, rows', r.actor.tenantId, ev)
               && Says(ev, r.actor, r.action, r.targetType, r.targetId, r.outcome, if r.metadata.None? then [] else r.metadata.value, s)
  {
    hide CanonicalEventBytes, NextInChain, Verifies, RecordStep, LedgerOf, Reached, IdTaken;
    var l := LedgerOf(rows, r.actor.tenantId);
    var ev := NextEvent(e.hash, HeadOrGenesis(l, r.actor.tenantId), r, s.id, s.now);
    ChainHeadVerifies(e.hash, l, r.actor.tenantId);
    NextEventDescribes(e.hash, l.events, HeadOrGenesis(l, r.actor.tenantId), r, s.id, s.now);
    RecordOutcome(e.hash, e.lower, rows, r, s.id, s.now, ev);
    hide NextEvent, HeadOrGenesis;
  }

  // Main result: after any run, a use case that succeeds leaves exactly one row in its actor's ledger, which
  // says so with its own details, and one that fails without a denied access leaves none.
  lemma EventsOutcome(e: Env, ops: seq<Op>, op: Op)
    requires Lawful(e.aead) && !op.Provision?
    ensures var t := After(e, ops);
            var (t', r) := Apply(e, t, op);
            var events := LedgerOf(t'.audit, op.actor.tenantId).events;
            && (r == Created || r.Rotated? || r == Deleted || r.Revealed? ==>
                  && events != []
                  && GrowsBy(e.hash, t.audit, t'.audit, op.actor.tenantId, events[|events| - 1])
                  && Says(events[|events| - 1], op.actor, ActionOf(op), "secret", Some(op.secretId), "success", Details(op, r), op.stamp))
            && (!(r == Created || r.Rotated? || r == Deleted || r.Revealed?) && (op.access.Allowed? || (op.Delete? && !op.stepUp)) ==>
                  t'.audit == t.audit)
  {
    hide After, WrittenAfter, Lawful, Represents, RecordIn, ChainOk, Apply, SpecStep, GrowsBy, Says, AllVerify;
    var t, w := After(e, ops), WrittenAfter(e, ops);
    RunRepresents(e, ops);
    LedgersVerify(e, ops);
    StepSimulates(e, t, w, op);
    SameAudit(e, t, w);
    SameAudit(e, Apply(e, t, op).0, SpecStep(e, w, op).0);
    VerifiesAt(e.hash, t.audit, op.actor.tenantId);
    SpecRecords(e, w, op);
    var r := SpecStep(e, w, op).1;
    var q := Request(op.actor, ActionOf(op), "secret", Some(op.secretId), "success", Some(Details(op, r)));
    if RecordIn(e, w.audit, q, op.stamp).Some? { RecordInSays(e, w.audit, q, op.stamp); }
  }

  lemma SameAudit(e: Env, t: Tables, w: Written)
    requires Represents(e, t, w)
    ensures t.audit == w.audit
  {
  }

  lemma VerifiesAt(h: Hash, rows: AuditRows, tenant: Uuid)
    requires AllVerify(h, rows)
    ensures ChainOk(h, LedgerOf(rows, tenant))
  {
  }

  lemma SpecRecords(e: Env, w: Written, op: Op)
    requires !op.Provision?
    ensures var (w', r) := SpecStep(e, w, op);
            var q := Request(op.actor, ActionOf(op), "secret", Some(op.secretId), "success", Some(Details(op, r)));
            && (r == Created || r.Rotated? || r == Deleted || r.Revealed? ==> RecordIn(e, w.audit, q, op.stamp) == Some(w'.audit))
            && (!(r == Created || r.Rotated? || r == Deleted || r.Revealed?) && (op.access.Allowed? || (op.Delete? && !op.stepUp)) ==>
                  w'.audit == w.audit)
  {
    hide RecordIn, NameUsed, Denial, UuidText;
    var vault := Entry("vault_id", Str(UuidText(op.vault)));
    assert [vault] + [] == [vault];
    assert forall n: int :: [vault] + [Entry("version", Int(n))] == [vault, Entry("version", Int(n))];
    assert forall n: int :: [vault] + [Entry("new_version", Int(n)), Entry("dek_version", Int(1))] ==
                            [vault, Entry("new_version", Int(n)), Entry("dek_version", Int(1))];
  }

  function Attempted(action: Option<string>): seq<Entry> {
    if action.Some? then [Entry("attempted_action", Str(action.value))] else []
  }

  // Main result: a use case whose access is denied answers Forbidden and changes no secret; if the denial is
  // audited, the actor's ledger grows by the one row that says so, unless its id is used by any tenant, its
  // hash by this one, or the guard takes the key for a forbidden one. Otherwise nothing is recorded.
  lemma DeniedOutcome(e: Env, ops: seq<Op>, op: Op, ev: AuditEvent)
    requires !op.Provision? && op.access.Denied? && (op.Delete? ==> op.stepUp)
    requires Says(ev, op.actor, "access.denied",
                  if op.access.targetType in {None, Some("")} then "vault" else op.access.targetType.value, op.access.targetId, "denied",
                  Attempted(op.access.attempted), op.stamp)
    requires NextInChain(e.hash, LedgerOf(After(e, ops).audit, op.actor.tenantId).events, ev)
    ensures var t := After(e, ops);
            var (t', r) := Apply(e, t, op);
            var events := LedgerOf(t.audit, op.actor.tenantId).events;
            && r == Forbidden && t' == t.(audit := t'.audit)
            && if op.access.audited && !IdTaken(t.audit.events, op.stamp.id)
                  && (forall i :: 0 <= i < |events| ==> events[i].entryHash != ev.entryHash)
                  && (op.access.attempted.Some? ==> e.lower("attempted_action") !in FORBIDDEN_METADATA_KEYS)
               then GrowsBy(e.hash, t.audit, t'.audit, op.actor.tenantId, ev)
               else t' == t
  {
    hide After, NextInChain, IdTaken, ChainOk, AllVerify, LedgerOf, RecordStep, Reached;
    var t := After(e, ops);
    LedgersVerify(e, ops);
    VerifiesAt(e.hash, t.audit, op.actor.tenantId);
    var metadata := Attempted(op.access.attempted);
    var kind := if op.access.targetType in {None, Some("")} then "vault" else op.access.targetType.value;
    var q := Request(op.actor, "access.denied", kind, op.access.targetId, "denied", Some(metadata));
    RecordOutcome(e.hash, e.lower, t.audit, q, op.stamp.id, op.stamp.now, ev);
    OneKeyReached(op.access.attempted);
    DeniedIs(e, t, op, kind, metadata);
  }

  lemma OneKeyReached(attempted: Option<string>)
    ensures forall k :: Reached(Dict(Attempted(attempted)), k) <==> attempted.Some? && k == "attempted_action"
  {
    var d := Attempted(attempted);
    if attempted.Some? { assert d[0].key == "attempted_action"; }
  }

  lemma DeniedIs(e: Env, t: Tables, op: Op, kind: string, metadata: seq<Entry>)
    requires !op.Provision? && op.access.Denied? && (op.Delete? ==> op.stepUp)
    requires kind == if op.access.targetType in {None, Some("")} then "vault" else op.access.targetType.value
    requires metadata == Attempted(op.access.attempted)
    ensures var q := Request(op.actor, "access.denied", kind, op.access.targetId, "denied", Some(metadata));
            var (rows, result) := RecordStep(e.hash, e.lower, t.audit, q, op.stamp.id, op.stamp.now);
            Apply(e, t, op) == (t.(audit := if op.access.audited && result == Recorded then rows else t.audit), Forbidden)
  {
    hide RecordStep;
    var none: Option<string> := None;
    assert op.access.targetType in {none, Some("")} <==> !(op.access.targetType.Some? && op.access.targetType.value != "");
    DenialIs(e, t.audit, op.actor, op.access, op.stamp);
    hide Denial;
  }

  lemma DenialIs(e: Env, rows: AuditRows, actor: ActorContext, d: Access, s: Stamp)
    requires d.Denied?
    ensures var kind := if d.targetType.Some? && d.targetType.value != "" then d.targetType.value else "vault";
            var q := Request(actor, "access.denied", kind, d.targetId, "denied", Some(Attempted(d.attempted)));
            var (rows', result) := RecordStep(e.hash, e.lower, rows, q, s.id, s.now);
            Denial(e, rows, actor, d, s) == if d.audited && result == Recorded then rows' else rows
  {
    hide RecordStep;
  }
}
