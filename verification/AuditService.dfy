// AuditService: the metadata guard, record, verify_chain, and what a verified chain is evidence of.
module AuditService {
  import opened Wrappers
  import opened Text
  import opened Json
  import opened AuditHashing

  datatype ActorContext = ActorContext(userId: Uuid, sessionId: Uuid, tenantId: Uuid)

  datatype ChainHead = ChainHead(tenantId: Uuid, lastSequence: int, lastHash: Option<Bytes>)

  datatype AuditEvent = AuditEvent(id: Uuid, fields: EventFields, previousHash: Option<Bytes>, entryHash: Bytes)

  // The rows one tenant has in the two audit tables, events in commit order.
  datatype Ledger = Ledger(head: Option<ChainHead>, events: seq<AuditEvent>)

  // The two audit tables by tenant.
  datatype AuditRows = AuditRows(heads: map<Uuid, ChainHead>, events: map<Uuid, seq<AuditEvent>>)

  const NO_ROWS := AuditRows(map[], map[])

  function LedgerOf(rows: AuditRows, tenant: Uuid): Ledger {
    Ledger(if tenant in rows.heads then Some(rows.heads[tenant]) else None,
           if tenant in rows.events then rows.events[tenant] else [])
  }

  const AUDIT_ACTIONS := {
    "vault.created", "vault.deleted", "vault.updated", "grant.created", "grant.updated", "grant.revoked",
    "secret.created", "secret.revealed", "secret.rotated", "secret.deleted", "key.rotated", "member.invited",
    "member.removed", "member.role_changed", "mfa.enabled", "mfa.disabled", "stepup.issued", "access.denied" }

  const FORBIDDEN_METADATA_KEYS := {
    "value", "plaintext", "password", "secret", "token", "code",
    "refresh_token", "access_token", "totp", "seed", "key", "dek" }

  // --- The metadata guard ---

  // The keys _walk_keys finds: it enters dictionaries, not lists.
  function WalkKeys(doc: seq<Entry>): seq<string> {
    if doc == [] then []
    else
      [doc[0].key] + (if doc[0].value.Dict? then WalkKeys(doc[0].value.entries) else []) + WalkKeys(doc[1..])
  }

  lemma {:induction false} WalkKeysAppend(a: seq<Entry>, e: Entry)
    ensures WalkKeys(a + [e]) == WalkKeys(a) + [e.key] + if e.value.Dict? then WalkKeys(e.value.entries) else []
  {
    if a == [] {
      assert a + [e] == [e] && [e][1..] == [];
    } else {
      assert (a + [e])[1..] == a[1..] + [e];
      WalkKeysAppend(a[1..], e);
    }
  }

  method CollectKeys(doc: seq<Entry>) returns (keys: seq<string>)
    ensures keys == WalkKeys(doc)
    decreases doc
  {
    keys := [];
    for i := 0 to |doc|
      invariant keys == WalkKeys(doc[..i])
    {
      WalkKeysAppend(doc[..i], doc[i]);
      assert doc[..i + 1] == doc[..i] + [doc[i]];
      keys := keys + [doc[i].key];
      if doc[i].value.Dict? {
        var below := CollectKeys(doc[i].value.entries);
        keys := keys + below;
      }
    }
    assert doc[..|doc|] == doc;
  }

  // Key `k` occurs somewhere in the value, at any depth.
  ghost predicate HasKey(v: Json, k: string) {
    match v
    case Dict(es) => exists i :: 0 <= i < |es| && (es[i].key == k || HasKey(es[i].value, k))
    case List(items) => exists i :: 0 <= i < |items| && HasKey(items[i], k)
    case _ => false
  }

  // Key `k` occurs in a dictionary held, directly or further down, by a list.
  ghost predicate InsideList(v: Json, k: string) {
    match v
    case Dict(es) => exists i :: 0 <= i < |es| && InsideList(es[i].value, k)
    case List(items) => HasKey(v, k)
    case _ => false
  }

  lemma {:induction false} WalkKeysMembers(doc: seq<Entry>, k: string)
    ensures k in WalkKeys(doc) <==>
            exists i :: 0 <= i < |doc| && (doc[i].key == k || (doc[i].value.Dict? && k in WalkKeys(doc[i].value.entries)))
  {
    if doc != [] {
      var t := doc[1..];
      WalkKeysMembers(t, k);
      if k in WalkKeys(t) {
        var i :| 0 <= i < |t| && (t[i].key == k || (t[i].value.Dict? && k in WalkKeys(t[i].value.entries)));
        assert doc[i + 1] == t[i];
      }
      if i :| 0 <= i < |doc| && (doc[i].key == k || (doc[i].value.Dict? && k in WalkKeys(doc[i].value.entries))) {
        assert i > 0 ==> t[i - 1] == doc[i];
      }
    }
  }

  // Key `k` occurs in a dictionary that is reached through dictionaries only.
  ghost predicate Reached(v: Json, k: string) {
    v.Dict? && exists i :: 0 <= i < |v.entries| && (v.entries[i].key == k || Reached(v.entries[i].value, k))
  }

  // The walk finds exactly those.
  lemma {:induction false} WalkReaches(doc: seq<Entry>, k: string)
    ensures k in WalkKeys(doc) <==> Reached(Dict(doc), k)
    decreases doc
  {
    WalkKeysMembers(doc, k);
    forall i | 0 <= i < |doc| && doc[i].value.Dict?
      ensures k in WalkKeys(doc[i].value.entries) <==> Reached(doc[i].value, k)
    {
      WalkReaches(doc[i].value.entries, k);
    }
  }

  lemma OffendingReached(doc: seq<Entry>, lower: string -> string)
    ensures Offending(doc, lower) <==> exists k :: Reached(Dict(doc), k) && lower(k) in FORBIDDEN_METADATA_KEYS
  {
    hide WalkKeys, Reached;
    var keys := WalkKeys(doc);
    forall k ensures k in keys <==> Reached(Dict(doc), k) { WalkReaches(doc, k); }
    forall i | 0 <= i < |keys| ensures Reached(Dict(doc), keys[i]) { assert keys[i] in keys; }
    if k :| Reached(Dict(doc), k) && lower(k) in FORBIDDEN_METADATA_KEYS {
      var i :| 0 <= i < |keys| && keys[i] == k;
      assert lower(keys[i]) in FORBIDDEN_METADATA_KEYS;
    }
  }

  // The walk misses exactly the keys that lie inside lists.
  lemma {:induction false} WalkMissesLists(doc: seq<Entry>, k: string)
    ensures HasKey(Dict(doc), k) <==> k in WalkKeys(doc) || InsideList(Dict(doc), k)
    decreases doc
  {
    WalkKeysMembers(doc, k);
    forall i | 0 <= i < |doc| && doc[i].value.Dict?
      ensures HasKey(doc[i].value, k) <==> k in WalkKeys(doc[i].value.entries) || InsideList(doc[i].value, k)
    {
      WalkMissesLists(doc[i].value.entries, k);
    }
    forall i | 0 <= i < |doc| && InsideList(doc[i].value, k) ensures HasKey(doc[i].value, k) { }
  }

  // `lower` is str.lower.
  ghost predicate Clean(v: Json, lower: string -> string) {
    forall k :: HasKey(v, k) ==> lower(k) !in FORBIDDEN_METADATA_KEYS
  }

  predicate Offending(doc: seq<Entry>, lower: string -> string) {
    var keys := WalkKeys(doc);
    exists i :: 0 <= i < |keys| && lower(keys[i]) in FORBIDDEN_METADATA_KEYS
  }

  // The decision to keep forbidden keys out of the ledger holds exactly for metadata that hides
  // none of them inside a list.
  lemma GuardExact(doc: seq<Entry>, lower: string -> string)
    requires !Offending(doc, lower)
    ensures Clean(Dict(doc), lower) <==>
            forall k :: InsideList(Dict(doc), k) ==> lower(k) !in FORBIDDEN_METADATA_KEYS
  {
    forall k ensures HasKey(Dict(doc), k) <==> k in WalkKeys(doc) || InsideList(Dict(doc), k) {
      WalkMissesLists(doc, k);
    }
  }

  // {"items": [{"password": "x"}]} passes the guard.
  lemma GuardMissesList(lower: string -> string)
    requires lower("items") == "items" && lower("password") == "password"
    ensures var doc := [Entry("items", List([Dict([Entry("password", Str("x"))])]))];
            !Offending(doc, lower) && !Clean(Dict(doc), lower)
  {
    var inner := Dict([Entry("password", Str("x"))]);
    var doc := [Entry("items", List([inner]))];
    assert doc[1..] == [] && WalkKeys(doc) == ["items"];
    assert "items"[0] == 'i';
    assert "items" !in FORBIDDEN_METADATA_KEYS;
    assert inner.entries[0].key == "password" && HasKey(inner, "password");
    assert doc[0].value.items[0] == inner && HasKey(doc[0].value, "password");
    assert HasKey(Dict(doc), "password");
  }

  // --- record ---

  datatype Request = Request(
    actor: ActorContext,
    action: string,
    targetType: string,
    targetId: Option<Uuid>,
    outcome: string,
    metadata: Option<seq<Entry>>)

  datatype RecordResult = Recorded | UnknownAuditAction | ForbiddenMetadata | ConstraintViolation

  function SafeMetadata(m: Option<seq<Entry>>): seq<Entry> { if m.Some? then m.value else [] }

  function HeadOrGenesis(l: Ledger, tenant: Uuid): ChainHead {
    if l.head.Some? then l.head.value else ChainHead(tenant, 0, None)
  }

  // The event `record` builds on a locked head.
  function NextEvent(h: Hash, head: ChainHead, r: Request, id: Uuid, now: UtcTime): AuditEvent {
    var f := EventFields(r.actor.tenantId, head.lastSequence + 1, Some(r.actor.userId), Some(r.actor.sessionId),
                         r.action, r.targetType, r.targetId, r.outcome, SafeMetadata(r.metadata), now);
    AuditEvent(id, f, head.lastHash, EntryHash(h, head.lastHash, CanonicalEventBytes(f)))
  }

  // uq_audit_tenant_sequence and uq_audit_tenant_entry_hash.
  predicate Clashes(events: seq<AuditEvent>, e: AuditEvent) {
    exists i :: 0 <= i < |events| && (events[i].fields.sequence == e.fields.sequence || events[i].entryHash == e.entryHash)
  }

  // The primary key is one for all tenants.
  predicate HasId(events: seq<AuditEvent>, id: Uuid) { exists i :: 0 <= i < |events| && events[i].id == id }

  predicate IdTaken(events: map<Uuid, seq<AuditEvent>>, id: Uuid) { exists t | t in events :: HasId(events[t], id) }

  predicate Violates(rows: AuditRows, e: AuditEvent) {
    Clashes(LedgerOf(rows, e.fields.tenantId).events, e) || IdTaken(rows.events, e.id)
  }

  function HeadAfter(e: AuditEvent): ChainHead { ChainHead(e.fields.tenantId, e.fields.sequence, Some(e.entryHash)) }

  lemma NextEventTenant(h: Hash, head: ChainHead, r: Request, id: Uuid, now: UtcTime)
    ensures NextEvent(h, head, r, id, now).fields.tenantId == r.actor.tenantId
  {
  }

  lemma HeadsDoNotClash(a: AuditRows, b: AuditRows, e: AuditEvent)
    requires a.events == b.events
    ensures Violates(a, e) == Violates(b, e)
  {
    hide Clashes, IdTaken;
  }

  // The rows with the event appended to its tenant's ledger.
  function Appended(rows: AuditRows, e: AuditEvent): AuditRows {
    var t := e.fields.tenantId;
    AuditRows(rows.heads[t := HeadAfter(e)], rows.events[t := LedgerOf(rows, t).events + [e]])
  }

  function RecordStep(h: Hash, lower: string -> string, rows: AuditRows, r: Request, id: Uuid, now: UtcTime): (AuditRows, RecordResult) {
    if r.action !in AUDIT_ACTIONS then (rows, UnknownAuditAction)
    else if Offending(SafeMetadata(r.metadata), lower) then (rows, ForbiddenMetadata)
    else
      var e := NextEvent(h, HeadOrGenesis(LedgerOf(rows, r.actor.tenantId), r.actor.tenantId), r, id, now);
      if Violates(rows, e) then (rows, ConstraintViolation) else (Appended(rows, e), Recorded)
  }

  // The service that writes the two tables one transaction at a time.
  class AuditTables {
    var heads: map<Uuid, ChainHead>
    var events: map<Uuid, seq<AuditEvent>>

    constructor ()
      ensures Current() == NO_ROWS
    {
      heads, events := map[], map[];
    }

    function Current(): AuditRows
      reads this
    {
      AuditRows(heads, events)
    }

    method LockOrCreateHead(tenant: Uuid) returns (head: ChainHead)
      modifies this`heads
      ensures head == HeadOrGenesis(LedgerOf(old(Current()), tenant), tenant)
      ensures heads == old(heads)[tenant := head]
    {
      if tenant !in heads {
        heads := heads[tenant := ChainHead(tenant, 0, None)];
      }
      head := heads[tenant];
      assert heads == heads[tenant := head];
    }

    method InsertEvent(e: AuditEvent) returns (ok: bool)
      modifies this`events
      ensures ok == !Violates(old(Current()), e)
      ensures ok ==> events == old(events)[e.fields.tenantId := LedgerOf(old(Current()), e.fields.tenantId).events + [e]]
      ensures !ok ==> events == old(events)
    {
      var rows := if e.fields.tenantId in events then events[e.fields.tenantId] else [];
      ok := !Clashes(rows, e) && !IdTaken(events, e.id);
      if ok {
        events := events[e.fields.tenantId := rows + [e]];
      }
    }

    method AdvanceHead(tenant: Uuid, lastSequence: int, lastHash: Bytes)
      requires tenant in heads
      modifies this`heads
      ensures heads == old(heads)[tenant := ChainHead(tenant, lastSequence, Some(lastHash))]
    {
      heads := heads[tenant := ChainHead(tenant, lastSequence, Some(lastHash))];
    }

    // record in its own transaction: any failure rolls the head row back.
    method Record(h: Hash, lower: string -> string, r: Request, id: Uuid, now: UtcTime) returns (result: RecordResult)
      modifies this
      ensures (Current(), result) == RecordStep(h, lower, old(Current()), r, id, now)
    {
      hide NextEvent, WalkKeys, Violates;
      if r.action !in AUDIT_ACTIONS {
        return UnknownAuditAction;
      }
      var keys := CollectKeys(SafeMetadata(r.metadata));
      if exists i :: 0 <= i < |keys| && lower(keys[i]) in FORBIDDEN_METADATA_KEYS {
        return ForbiddenMetadata;
      }
      var saved := heads;
      var tenant := r.actor.tenantId;
      var head := LockOrCreateHead(tenant);
      var e := NextEvent(h, head, r, id, now);
      NextEventTenant(h, head, r, id, now);
      assert Violates(Current(), e) == Violates(old(Current()), e) by { HeadsDoNotClash(Current(), old(Current()), e); }
      var ok := InsertEvent(e);
      if !ok {
        heads := saved;
        return ConstraintViolation;
      }
      AdvanceHead(tenant, e.fields.sequence, e.entryHash);
      assert Current() == Appended(old(Current()), e);
      result := Recorded;
    }
  }

  // --- verify_chain ---

  datatype Reason = SequenceGap(expected: int, found: int) | LinkBroken | ContentAltered | HeadInconsistent

  datatype VerificationResult = VerificationResult(ok: bool, eventsChecked: int, failureSequence: Option<int>, reason: Option<Reason>)

  function PreviousOf(events: seq<AuditEvent>, i: nat): Option<Bytes>
    requires i <= |events|
  {
    if i == 0 then None else Some(events[i - 1].entryHash)
  }

  function InputOf(events: seq<AuditEvent>, i: nat): Bytes
    requires i < |events|
  {
    HashInput(PreviousOf(events, i), CanonicalEventBytes(events[i].fields))
  }

  // Row i carries the next sequence, the previous row's hash and its own recomputed hash.
  predicate RowOk(h: Hash, events: seq<AuditEvent>, i: nat)
    requires i < |events|
  {
    && events[i].fields.sequence == i + 1
    && events[i].previousHash == PreviousOf(events, i)
    && events[i].entryHash == h(InputOf(events, i))
  }

  ghost predicate WellFormed(h: Hash, events: seq<AuditEvent>) {
    forall i :: 0 <= i < |events| ==> RowOk(h, events, i)
  }

  predicate HeadConsistent(events: seq<AuditEvent>, head: Option<ChainHead>) {
    head.Some? ==> head.value.lastSequence == |events| && head.value.lastHash == PreviousOf(events, |events|)
  }

  // The longest well-formed prefix has k rows and row k exists.
  ghost predicate FirstBadRow(h: Hash, events: seq<AuditEvent>, k: nat) {
    && k < |events| && !RowOk(h, events, k)
    && forall i :: 0 <= i < k ==> RowOk(h, events, i)
  }

  // Why row i is rejected: the first of the three tests it fails.
  function RowReason(events: seq<AuditEvent>, i: nat): Reason
    requires i < |events|
  {
    if events[i].fields.sequence != i + 1 then SequenceGap(i + 1, events[i].fields.sequence)
    else if events[i].previousHash != PreviousOf(events, i) then LinkBroken
    else ContentAltered
  }

  function RowFailure(events: seq<AuditEvent>, k: nat): VerificationResult
    requires k < |events|
  {
    VerificationResult(false, k, Some(events[k].fields.sequence), Some(RowReason(events, k)))
  }

  // The specification of verify_chain.
  ghost predicate Verdict(h: Hash, events: seq<AuditEvent>, head: Option<ChainHead>, r: VerificationResult) {
    if !WellFormed(h, events) then exists k :: FirstBadRow(h, events, k) && r == RowFailure(events, k)
    else if HeadConsistent(events, head) then r == VerificationResult(true, |events|, None, None)
    else r == VerificationResult(false, |events|, None, Some(HeadInconsistent))
  }

  lemma RowRejected(h: Hash, events: seq<AuditEvent>, head: Option<ChainHead>, k: nat)
    requires FirstBadRow(h, events, k)
    ensures Verdict(h, events, head, RowFailure(events, k))
  {
  }

  method VerifyChain(h: Hash, events: seq<AuditEvent>, head: Option<ChainHead>) returns (r: VerificationResult)
    ensures Verdict(h, events, head, r)
  {
    hide CanonicalEventBytes, HashInput, Verdict;
    var expectedPrevious: Option<Bytes> := None;
    var expectedSequence := 1;
    for i := 0 to |events|
      invariant expectedSequence == i + 1
      invariant expectedPrevious == PreviousOf(events, i)
      invariant forall k :: 0 <= k < i ==> RowOk(h, events, k)
    {
      var row := events[i];
      if row.fields.sequence != expectedSequence {
        RowRejected(h, events, head, i);
        return VerificationResult(false, expectedSequence - 1, Some(row.fields.sequence),
                                  Some(SequenceGap(expectedSequence, row.fields.sequence)));
      }
      if row.previousHash != expectedPrevious {
        RowRejected(h, events, head, i);
        return VerificationResult(false, row.fields.sequence - 1, Some(row.fields.sequence), Some(LinkBroken));
      }
      var recomputed := EntryHash(h, expectedPrevious, CanonicalEventBytes(row.fields));
      if recomputed != row.entryHash {
        RowRejected(h, events, head, i);
        return VerificationResult(false, row.fields.sequence - 1, Some(row.fields.sequence), Some(ContentAltered));
      }
      expectedPrevious := Some(row.entryHash);
      expectedSequence := expectedSequence + 1;
    }
    r := VerificationResult(true, expectedSequence - 1, None, None);
    if head.Some? && (head.value.lastHash != expectedPrevious || head.value.lastSequence != expectedSequence - 1) {
      r := VerificationResult(false, expectedSequence - 1, None, Some(HeadInconsistent));
    }
    AllRowsGood(h, events, head, r);
  }

  lemma AllRowsGood(h: Hash, events: seq<AuditEvent>, head: Option<ChainHead>, r: VerificationResult)
    requires WellFormed(h, events)
    requires r == if HeadConsistent(events, head) then VerificationResult(true, |events|, None, None)
                  else VerificationResult(false, |events|, None, Some(HeadInconsistent))
    ensures Verdict(h, events, head, r)
  {
  }

  ghost predicate Verifies(h: Hash, events: seq<AuditEvent>, head: Option<ChainHead>) {
    WellFormed(h, events) && HeadConsistent(events, head)
  }

  // Main result: ok exactly for well-formed chains that match the head; `eventsChecked` is the length
  // of the longest well-formed prefix; a row failure names the sequence of the next row and a
  // head-only failure names none; and the reason is the first test that the row, or else the head, fails.
  lemma VerdictMeaning(h: Hash, events: seq<AuditEvent>, head: Option<ChainHead>, r: VerificationResult)
    requires Verdict(h, events, head, r)
    ensures r.ok <==> Verifies(h, events, head)
    ensures forall n :: 0 <= n <= |events| ==> (WellFormed(h, events[..n]) <==> n <= r.eventsChecked)
    ensures r.failureSequence.Some? <==> !WellFormed(h, events)
    ensures r.failureSequence.Some? ==>
              0 <= r.eventsChecked < |events| && r.failureSequence.value == events[r.eventsChecked].fields.sequence
    ensures r.reason.None? <==> r.ok
    ensures r.reason == Some(HeadInconsistent) <==> !r.ok && WellFormed(h, events)
    ensures r.failureSequence.Some? ==>
              var n := r.eventsChecked;
              var row, previous := events[n], if n == 0 then None else Some(events[n - 1].entryHash);
              && (row.fields.sequence != n + 1 <==> r.reason == Some(SequenceGap(n + 1, row.fields.sequence)))
              && (row.fields.sequence == n + 1 && row.previousHash != previous <==> r.reason == Some(LinkBroken))
              && (row.fields.sequence == n + 1 && row.previousHash == previous <==> r.reason == Some(ContentAltered))
  {
    hide RowOk, HeadConsistent;
    forall n | 0 <= n <= |events| ensures WellFormed(h, events[..n]) <==> n <= r.eventsChecked {
      PrefixRows(h, events, n);
    }
  }

  // --- record keeps the chain verifying ---

  ghost predicate ChainOk(h: Hash, l: Ledger) {
    Verifies(h, l.events, l.head) && (l.head.None? ==> l.events == [])
  }

  lemma AppendRow(h: Hash, events: seq<AuditEvent>, e: AuditEvent)
    requires WellFormed(h, events)
    ensures WellFormed(h, events + [e]) <==> RowOk(h, events + [e], |events|)
    ensures forall i :: 0 <= i < |events| ==> RowOk(h, events + [e], i)
  {
    var all := events + [e];
    forall i | 0 <= i < |events| ensures RowOk(h, all, i) {
      assert RowOk(h, events, i) && all[i] == events[i] && PreviousOf(all, i) == PreviousOf(events, i);
    }
  }

  lemma NextEventExtends(h: Hash, events: seq<AuditEvent>, head: ChainHead, r: Request, id: Uuid, now: UtcTime)
    requires Verifies(h, events, Some(head))
    ensures var e := NextEvent(h, head, r, id, now);
            Verifies(h, events + [e], Some(HeadAfter(e))) && e.fields.sequence == |events| + 1
  {
    hide CanonicalEventBytes;
    var e := NextEvent(h, head, r, id, now);
    AppendRow(h, events, e);
    assert PreviousOf(events + [e], |events|) == PreviousOf(events, |events|) == head.lastHash;
  }

  // Main result for one writer: record keeps a verifying ledger verifying, appends at most the one
  // event described by the request, never trips the sequence constraint and leaves other tenants alone.
  lemma RecordKeepsChain(h: Hash, lower: string -> string, rows: AuditRows, r: Request, id: Uuid, now: UtcTime)
    requires ChainOk(h, LedgerOf(rows, r.actor.tenantId))
    ensures var (rows', result) := RecordStep(h, lower, rows, r, id, now);
            var l, l' := LedgerOf(rows, r.actor.tenantId), LedgerOf(rows', r.actor.tenantId);
            && ChainOk(h, l')
            && (result != Recorded ==> rows' == rows)
            && (result == Recorded ==>
                  && |l'.events| == |l.events| + 1 && l.events <= l'.events
                  && l'.events[|l.events|].fields.sequence == |l'.events|)
            && (result == ConstraintViolation ==>
                  var e := NextEvent(h, HeadOrGenesis(l, r.actor.tenantId), r, id, now);
                  IdTaken(rows.events, id) || exists i :: 0 <= i < |l.events| && l.events[i].entryHash == e.entryHash)
            && (forall t :: t != r.actor.tenantId ==> LedgerOf(rows', t) == LedgerOf(rows, t))
  {
    hide CanonicalEventBytes, Offending, EntryHash, Verifies, IdTaken;
    var l := LedgerOf(rows, r.actor.tenantId);
    var head := HeadOrGenesis(l, r.actor.tenantId);
    var e := NextEvent(h, head, r, id, now);
    assert Verifies(h, l.events, Some(head)) by { ChainHeadVerifies(h, l, r.actor.tenantId); }
    NextEventExtends(h, l.events, head, r, id, now);
    SequencesBelow(h, l.events, Some(head));
    if Clashes(l.events, e) {
      var i :| 0 <= i < |l.events| && (l.events[i].fields.sequence == e.fields.sequence || l.events[i].entryHash == e.entryHash);
      assert l.events[i].entryHash == e.entryHash;
    }
  }

  // The row says what was asked for: who, in which session, what, on what, with what outcome and when.
  ghost predicate Describes(e: AuditEvent, r: Request, id: Uuid, now: UtcTime) {
    && e.id == id
    && e.fields.tenantId == r.actor.tenantId
    && e.fields.actorUserId == Some(r.actor.userId)
    && e.fields.sessionId == Some(r.actor.sessionId)
    && e.fields.action == r.action
    && e.fields.targetType == r.targetType
    && e.fields.targetId == r.targetId
    && e.fields.outcome == r.outcome
    && e.fields.metadata == (if r.metadata.None? then [] else r.metadata.value)
    && e.fields.occurredAt == now
  }

  // The row continues the chain behind the events.
  ghost predicate NextInChain(h: Hash, events: seq<AuditEvent>, e: AuditEvent) {
    && e.fields.sequence == |events| + 1
    && e.previousHash == (if events == [] then None else Some(events[|events| - 1].entryHash))
    && e.entryHash == h((if e.previousHash.None? then GENESIS_DOMAIN else e.previousHash.value) + CanonicalEventBytes(e.fields))
  }

  lemma OneDescription(h: Hash, events: seq<AuditEvent>, a: AuditEvent, b: AuditEvent, r: Request, id: Uuid, now: UtcTime)
    requires Describes(a, r, id, now) && Describes(b, r, id, now) && NextInChain(h, events, a) && NextInChain(h, events, b)
    ensures a == b
  {
    hide CanonicalEventBytes;
    assert a.fields == b.fields;
  }

  lemma NextEventDescribes(h: Hash, events: seq<AuditEvent>, head: ChainHead, r: Request, id: Uuid, now: UtcTime)
    requires Verifies(h, events, Some(head))
    ensures Describes(NextEvent(h, head, r, id, now), r, id, now) && NextInChain(h, events, NextEvent(h, head, r, id, now))
  {
    hide CanonicalEventBytes, WellFormed, Encode;
  }

  // Main result: on a verifying ledger record answers for the request alone. It refuses an unknown action,
  // then a forbidden key in a dictionary reached through dictionaries, then an id used by any tenant or a
  // hash used by this one; otherwise the tenant's ledger grows by the one row that describes the request
  // and continues the chain, its head follows, and no other ledger changes.
  lemma RecordOutcome(h: Hash, lower: string -> string, rows: AuditRows, r: Request, id: Uuid, now: UtcTime, e: AuditEvent)
    requires ChainOk(h, LedgerOf(rows, r.actor.tenantId))
    requires Describes(e, r, id, now) && NextInChain(h, LedgerOf(rows, r.actor.tenantId).events, e)
    ensures var (rows', result) := RecordStep(h, lower, rows, r, id, now);
            var events := LedgerOf(rows, r.actor.tenantId).events;
            var known := r.action in AUDIT_ACTIONS;
            var forbidden := exists k :: Reached(Dict(if r.metadata.None? then [] else r.metadata.value), k) && lower(k) in FORBIDDEN_METADATA_KEYS;
            var used := IdTaken(rows.events, id) || exists i :: 0 <= i < |events| && events[i].entryHash == e.entryHash;
            && (result == UnknownAuditAction <==> !known)
            && (result == ForbiddenMetadata <==> known && forbidden)
            && (result == ConstraintViolation <==> known && !forbidden && used)
            && (result != Recorded ==> rows' == rows)
            && (result == Recorded ==>
                  && LedgerOf(rows', r.actor.tenantId) ==
                     Ledger(Some(ChainHead(r.actor.tenantId, |events| + 1, Some(e.entryHash))), events + [e])
                  && forall t :: t != r.actor.tenantId ==> LedgerOf(rows', t) == LedgerOf(rows, t))
  {
    hide *;
    var tenant := r.actor.tenantId;
    var l := LedgerOf(rows, tenant);
    var head := HeadOrGenesis(l, tenant);
    ChainHeadVerifies(h, l, tenant);
    NextEventDescribes(h, l.events, head, r, id, now);
    OneDescription(h, l.events, NextEvent(h, head, r, id, now), e, r, id, now);
    OffendingReached(SafeMetadata(r.metadata), lower);
    MetadataIs(r.metadata);
    DescribesId(e, r, id, now, h, l.events);
    ClashesIff(h, l, head, e);
    RecordCases(h, lower, rows, r, id, now);
    AppendedIs(rows, e);
  }

  lemma MetadataIs(m: Option<seq<Entry>>)
    ensures SafeMetadata(m) == if m.None? then [] else m.value
  {
  }

  lemma RecordCases(h: Hash, lower: string -> string, rows: AuditRows, r: Request, id: Uuid, now: UtcTime)
    ensures var e := NextEvent(h, HeadOrGenesis(LedgerOf(rows, r.actor.tenantId), r.actor.tenantId), r, id, now);
            RecordStep(h, lower, rows, r, id, now) ==
            if r.action !in AUDIT_ACTIONS then (rows, UnknownAuditAction)
            else if Offending(SafeMetadata(r.metadata), lower) then (rows, ForbiddenMetadata)
            else if Clashes(LedgerOf(rows, e.fields.tenantId).events, e) || IdTaken(rows.events, e.id) then (rows, ConstraintViolation)
            else (Appended(rows, e), Recorded)
  {
    hide NextEvent, Offending, Clashes, IdTaken, Appended;
  }

  lemma ClashesIff(h: Hash, l: Ledger, head: ChainHead, e: AuditEvent)
    requires Verifies(h, l.events, Some(head)) && e.fields.sequence == |l.events| + 1
    ensures Clashes(l.events, e) <==> exists i :: 0 <= i < |l.events| && l.events[i].entryHash == e.entryHash
  {
    SequencesBelow(h, l.events, Some(head));
    hide Verifies;
  }

  lemma AppendedIs(rows: AuditRows, e: AuditEvent)
    ensures var tenant, rows' := e.fields.tenantId, Appended(rows, e);
            && LedgerOf(rows', tenant) ==
               Ledger(Some(ChainHead(tenant, e.fields.sequence, Some(e.entryHash))), LedgerOf(rows, tenant).events + [e])
            && forall t :: t != tenant ==> LedgerOf(rows', t) == LedgerOf(rows, t)
  {
  }

  lemma DescribesId(e: AuditEvent, r: Request, id: Uuid, now: UtcTime, h: Hash, events: seq<AuditEvent>)
    requires Describes(e, r, id, now) && NextInChain(h, events, e)
    ensures e.id == id && e.fields.tenantId == r.actor.tenantId && e.fields.sequence == |events| + 1
  {
    hide CanonicalEventBytes;
  }

  lemma ChainHeadVerifies(h: Hash, l: Ledger, tenant: Uuid)
    requires ChainOk(h, l)
    ensures Verifies(h, l.events, Some(HeadOrGenesis(l, tenant)))
  {
  }

  lemma SequencesBelow(h: Hash, events: seq<AuditEvent>, head: Option<ChainHead>)
    requires Verifies(h, events, head)
    ensures forall i :: 0 <= i < |events| ==> events[i].fields.sequence == i + 1
  {
    hide CanonicalEventBytes, HashInput;
    forall i | 0 <= i < |events| ensures events[i].fields.sequence == i + 1 {
      assert RowOk(h, events, i);
    }
  }

  // --- Tamper evidence ---

  ghost predicate Digest32(h: Hash) { forall b :: |h(b)| == 32 }

  ghost predicate CollisionFree(h: Hash, inputs: set<Bytes>) {
    forall x, y :: x in inputs && y in inputs && h(x) == h(y) ==> x == y
  }

  ghost function ChainInputs(events: seq<AuditEvent>): set<Bytes> {
    set i | 0 <= i < |events| :: InputOf(events, i)
  }

  ghost predicate AllValid(events: seq<AuditEvent>) {
    forall i :: 0 <= i < |events| ==> ValidFields(events[i].fields)
  }

  // The same history: equal in every hashed field and both hash columns, row by row.
  ghost predicate SameHistory(a: seq<AuditEvent>, b: seq<AuditEvent>) {
    && |a| == |b|
    && forall i :: 0 <= i < |a| ==>
         SameFields(a[i].fields, b[i].fields) && a[i].previousHash == b[i].previousHash && a[i].entryHash == b[i].entryHash
  }

  lemma PrefixRows(h: Hash, events: seq<AuditEvent>, n: nat)
    requires n <= |events|
    ensures forall i :: 0 <= i < n ==> RowOk(h, events[..n], i) == RowOk(h, events, i)
    ensures forall i :: 0 <= i < n ==> InputOf(events[..n], i) == InputOf(events, i)
    ensures WellFormed(h, events) ==> WellFormed(h, events[..n])
    ensures ChainInputs(events[..n]) <= ChainInputs(events)
  {
    hide CanonicalEventBytes, HashInput;
    var p := events[..n];
    forall i | 0 <= i < n ensures RowOk(h, p, i) == RowOk(h, events, i) && InputOf(p, i) == InputOf(events, i) {
      assert PreviousOf(p, i) == PreviousOf(events, i);
    }
    assert WellFormed(h, events) ==> forall i :: 0 <= i < n ==> RowOk(h, events, i);
  }

  lemma NoCollision(h: Hash, inputs: set<Bytes>, x: Bytes, y: Bytes)
    requires CollisionFree(h, inputs) && x in inputs && y in inputs && h(x) == h(y)
    ensures x == y
  {
  }

  lemma FewerInputs(h: Hash, inputs: set<Bytes>, fewer: set<Bytes>)
    requires CollisionFree(h, inputs) && fewer <= inputs
    ensures CollisionFree(h, fewer)
  {
  }

  lemma PreviousSized(h: Hash, events: seq<AuditEvent>, i: nat)
    requires Digest32(h) && WellFormed(h, events) && i <= |events|
    ensures DigestSized(PreviousOf(events, i))
  {
    hide CanonicalEventBytes, HashInput;
    assert i > 0 ==> RowOk(h, events, i - 1);
  }

  // The last rows of two well-formed chains that share a hash are the same row.
  lemma LastRowsAgree(h: Hash, a: seq<AuditEvent>, b: seq<AuditEvent>)
    requires Digest32(h) && AllValid(a) && AllValid(b) && a != [] && b != []
    requires WellFormed(h, a) && WellFormed(h, b) && CollisionFree(h, ChainInputs(a) + ChainInputs(b))
    requires a[|a| - 1].entryHash == b[|b| - 1].entryHash
    ensures |a| == |b| && SameFields(a[|a| - 1].fields, b[|b| - 1].fields)
    ensures PreviousOf(a, |a| - 1) == PreviousOf(b, |b| - 1)
  {
    hide CanonicalEventBytes, HashInput, CollisionFree, PreviousOf, Digest32, DigestSized, ValidFields;
    var m, n := |a| - 1, |b| - 1;
    assert RowOk(h, a, m) && RowOk(h, b, n);
    assert InputOf(a, m) in ChainInputs(a) && InputOf(b, n) in ChainInputs(b);
    NoCollision(h, ChainInputs(a) + ChainInputs(b), InputOf(a, m), InputOf(b, n));
    PreviousSized(h, a, m);
    PreviousSized(h, b, n);
    FramingUnambiguous(PreviousOf(a, m), a[m].fields, PreviousOf(b, n), b[n].fields);
  }

  // Main result: chains that end in the same hash record the same history.
  lemma {:induction false} SameLastHashSameHistory(h: Hash, a: seq<AuditEvent>, b: seq<AuditEvent>)
    requires Digest32(h) && AllValid(a) && AllValid(b) && a != [] && b != []
    requires WellFormed(h, a) && WellFormed(h, b) && CollisionFree(h, ChainInputs(a) + ChainInputs(b))
    requires a[|a| - 1].entryHash == b[|b| - 1].entryHash
    ensures SameHistory(a, b)
    decreases |a|
  {
    hide CanonicalEventBytes, HashInput, SameFields, CollisionFree, ChainInputs, Digest32, ValidFields;
    LastRowsAgree(h, a, b);
    var m := |a| - 1;
    assert RowOk(h, a, m) && RowOk(h, b, m);
    if m > 0 {
      var p, q := a[..m], b[..m];
      PrefixRows(h, a, m);
      PrefixRows(h, b, m);
      FewerInputs(h, ChainInputs(a) + ChainInputs(b), ChainInputs(p) + ChainInputs(q));
      SameLastHashSameHistory(h, p, q);
      AgreeUpTo(a, b, m);
    }
  }

  lemma AgreeUpTo(a: seq<AuditEvent>, b: seq<AuditEvent>, m: nat)
    requires m + 1 == |a| == |b| && SameHistory(a[..m], b[..m])
    requires SameFields(a[m].fields, b[m].fields) && a[m].previousHash == b[m].previousHash && a[m].entryHash == b[m].entryHash
    ensures SameHistory(a, b)
  {
    hide SameFields;
    forall i | 0 <= i < m
      ensures SameFields(a[i].fields, b[i].fields) && a[i].previousHash == b[i].previousHash && a[i].entryHash == b[i].entryHash
    {
      assert a[i] == a[..m][i] && b[i] == b[..m][i];
    }
  }

  lemma SameHistoryVerifies(h: Hash, a: seq<AuditEvent>, b: seq<AuditEvent>, head: ChainHead)
    requires AllValid(a) && AllValid(b) && Verifies(h, a, Some(head)) && SameHistory(a, b)
    ensures Verifies(h, b, Some(head))
  {
    hide CanonicalEventBytes, HashInput;
    forall i | 0 <= i < |b| ensures RowOk(h, b, i) {
      assert RowOk(h, a, i);
      CanonicalBytesDecideFields(a[i].fields, b[i].fields);
    }
  }

  // Main result: against the head of a verified ledger, exactly the lists with the same history
  // verify. Any edit, truncation, extension or reordering is reported.
  lemma TamperEvidence(h: Hash, a: seq<AuditEvent>, b: seq<AuditEvent>, head: ChainHead)
    requires Digest32(h) && AllValid(a) && AllValid(b)
    requires CollisionFree(h, ChainInputs(a) + ChainInputs(b))
    requires Verifies(h, a, Some(head))
    ensures Verifies(h, b, Some(head)) <==> SameHistory(a, b)
  {
    hide CanonicalEventBytes, HashInput, CollisionFree, ChainInputs, Digest32, SameFields;
    if Verifies(h, b, Some(head)) {
      if a != [] {
        SameLastHashSameHistory(h, a, b);
      }
    }
    if SameHistory(a, b) {
      SameHistoryVerifies(h, a, b, head);
    }
  }

  // Without a head row the end of the list is not pinned: every prefix of a verified ledger verifies.
  lemma NoHeadAcceptsPrefixes(h: Hash, events: seq<AuditEvent>, head: ChainHead, n: nat)
    requires Verifies(h, events, Some(head)) && n <= |events|
    ensures Verifies(h, events[..n], None)
    ensures Verifies(h, events[..n], Some(head)) <==> n == |events|
  {
    hide CanonicalEventBytes, HashInput;
    PrefixRows(h, events, n);
    if n == |events| { assert events[..n] == events; }
  }
}
