// The versioned secret store with envelope encryption, each use case one transaction together with
// its audit event.
module SecretStore {
  import opened Wrappers
  import opened Text
  import opened Json
  import opened AuditHashing
  import opened AuditService
  import opened CipherContexts

  const KEY_ID := "local-kek-v1"
  const DEK_SIZE := 32

  type Dek = b: Bytes | |b| == DEK_SIZE witness seq(DEK_SIZE, _ => 0)

  datatype Secret = Secret(tenant: Uuid, vault: Uuid, name: string, currentVersion: int, deleted: bool)
  datatype VersionRow = VersionRow(tenant: Uuid, ciphertext: Bytes, nonce: Bytes, dekVersion: int)
  datatype KeyRow = KeyRow(wrapped: Bytes, nonce: Bytes, keyId: string)

  // The tables by their unique keys: versions by (secret, version), key rows by (tenant, version),
  // and the partial unique index on a tenant's active key.
  datatype Tables = Tables(
    secrets: map<Uuid, Secret>,
    names: set<(Uuid, string)>,
    versions: map<(Uuid, int), VersionRow>,
    keys: map<(Uuid, int), KeyRow>,
    activeKey: map<Uuid, int>,
    audit: AuditRows)

  const EMPTY := Tables(map[], {}, map[], map[], map[], NO_ROWS)

  // What the services are built with: the cipher, the master key, SHA-256 and str.lower.
  datatype Env = Env(aead: Aead, kek: Bytes, hash: Hash, lower: string -> string)

  // The policy's answer; a denial may ask for an audit event of its own.
  datatype Access = Allowed | Denied(audited: bool, attempted: Option<string>, targetType: Option<string>, targetId: Option<Uuid>)

  // The event's id and time.
  datatype Stamp = Stamp(id: Uuid, now: UtcTime)

  datatype Outcome =
    | Provisioned(version: int)
    | Created
    | Rotated(version: int)
    | Deleted
    | Revealed(plaintext: string, version: int)
    | NotFound
    | Forbidden
    | SecretConflict
    | NoActiveKey
    | CryptoError
    | IntegrityError   // any other constraint: the transaction rolls back

  datatype Op =
    | Provision(tenant: Uuid, dek: Dek, wrapNonce: Bytes)
    | Create(actor: ActorContext, access: Access, vault: Uuid, secretId: Uuid, name: string, plaintext: string, nonce: Bytes, stamp: Stamp)
    | Rotate(actor: ActorContext, access: Access, vault: Uuid, secretId: Uuid, plaintext: string, nonce: Bytes, stamp: Stamp)
    | Delete(actor: ActorContext, access: Access, stepUp: bool, vault: Uuid, secretId: Uuid, stamp: Stamp)
    | Reveal(actor: ActorContext, access: Access, vault: Uuid, secretId: Uuid, version: Option<int>, stamp: Stamp)

  // --- Keys ---

  // kek.unwrap of a stored row.
  function Unwrap(e: Env, row: KeyRow, tenant: Uuid, version: int): Option<Bytes> {
    if row.keyId != KEY_ID then None else e.aead.open(e.kek, row.nonce, row.wrapped, DekWrapAad(tenant, version))
  }

  function LoadDekVersion(e: Env, t: Tables, tenant: Uuid, version: int): Option<Bytes> {
    if (tenant, version) in t.keys then Unwrap(e, t.keys[(tenant, version)], tenant, version) else None
  }

  function ProvisionStep(e: Env, t: Tables, op: Op): (Tables, Outcome)
    requires op.Provision?
  {
    if op.tenant in t.activeKey then (t, Provisioned(t.activeKey[op.tenant]))
    else if (op.tenant, 1) in t.keys then (t, SecretConflict)
    else
      var row := KeyRow(e.aead.seal(e.kek, op.wrapNonce, op.dek, DekWrapAad(op.tenant, 1)), op.wrapNonce, KEY_ID);
      (t.(keys := t.keys[(op.tenant, 1) := row], activeKey := t.activeKey[op.tenant := 1]), Provisioned(1))
  }

  // --- Audit, in the same transaction ---

  function RecordIn(e: Env, rows: AuditRows, r: Request, s: Stamp): Option<AuditRows> {
    var (rows', result) := RecordStep(e.hash, e.lower, rows, r, s.id, s.now);
    if result == Recorded then Some(rows') else None
  }

  function Recording(e: Env, t: Tables, r: Request, s: Stamp): Option<Tables> {
    match RecordIn(e, t.audit, r, s)
    case None => None
    case Some(rows) => Some(t.(audit := rows))
  }

  function SecretEvent(actor: ActorContext, action: string, secretId: Uuid, metadata: seq<Entry>): Request {
    Request(actor, action, "secret", Some(secretId), "success", Some(metadata))
  }

  function RotationEvent(actor: ActorContext, vault: Uuid, secretId: Uuid, version: int, dekVersion: int): Request {
    SecretEvent(actor, "secret.rotated", secretId,
                [VaultEntry(vault), Entry("new_version", Int(version)), Entry("dek_version", Int(dekVersion))])
  }

  function VaultEntry(vault: Uuid): Entry { Entry("vault_id", Str(UuidText(vault))) }

  // record_denial_if_needed: a second transaction after the first one rolled back.
  function Denial(e: Env, rows: AuditRows, actor: ActorContext, d: Access, s: Stamp): AuditRows
    requires d.Denied?
  {
    if !d.audited then rows
    else
      var metadata := if d.attempted.Some? then [Entry("attempted_action", Str(d.attempted.value))] else [];
      var kind := if d.targetType.Some? && d.targetType.value != "" then d.targetType.value else "vault";
      match RecordIn(e, rows, Request(actor, "access.denied", kind, d.targetId, "denied", Some(metadata)), s)
      case Some(rows') => rows'
      case None => rows
  }

  function DenialStep(e: Env, t: Tables, actor: ActorContext, d: Access, s: Stamp): Tables
    requires d.Denied?
  {
    t.(audit := Denial(e, t.audit, actor, d, s))
  }

  // --- The use cases ---

  // Encrypting under the active key; `row` is the version row to store.
  datatype Sealed = SealedRow(row: VersionRow) | SealFailed(why: Outcome)

  function Seal(e: Env, t: Tables, tenant: Uuid, vault: Uuid, secretId: Uuid, version: int, plaintext: string, nonce: Bytes): Sealed {
    if tenant !in t.activeKey || (tenant, t.activeKey[tenant]) !in t.keys then SealFailed(NoActiveKey)
    else
      match LoadDekVersion(e, t, tenant, t.activeKey[tenant])
      case None => SealFailed(CryptoError)
      case Some(dek) =>
        if |dek| != DEK_SIZE then SealFailed(CryptoError)
        else SealedRow(VersionRow(tenant, e.aead.seal(dek, nonce, Encode(plaintext), SecretAad(tenant, vault, secretId, version)),
                                  nonce, t.activeKey[tenant]))
  }

  function Active(t: Tables, secretId: Uuid, vault: Uuid, tenant: Uuid): bool {
    && secretId in t.secrets && t.secrets[secretId].vault == vault && t.secrets[secretId].tenant == tenant
    && !t.secrets[secretId].deleted
  }

  function CreateStep(e: Env, t: Tables, op: Op): (Tables, Outcome)
    requires op.Create?
  {
    var tenant := op.actor.tenantId;
    if op.access.Denied? then (DenialStep(e, t, op.actor, op.access, op.stamp), Forbidden)
    else if op.secretId in t.secrets || (op.vault, op.name) in t.names then (t, SecretConflict)
    else
      var t1 := t.(secrets := t.secrets[op.secretId := Secret(tenant, op.vault, op.name, 1, false)], names := t.names + {(op.vault, op.name)});
      match Seal(e, t1, tenant, op.vault, op.secretId, 1, op.plaintext, op.nonce)
      case SealFailed(why) => (t, why)
      case SealedRow(row) =>
        if (op.secretId, 1) in t.versions then (t, IntegrityError)
        else
          var t2 := t1.(versions := t1.versions[(op.secretId, 1) := row]);
          match Recording(e, t2, SecretEvent(op.actor, "secret.created", op.secretId, [VaultEntry(op.vault)]), op.stamp)
          case None => (t, IntegrityError)
          case Some(t3) => (t3, Created)
  }

  function RotateStep(e: Env, t: Tables, op: Op): (Tables, Outcome)
    requires op.Rotate?
  {
    var tenant := op.actor.tenantId;
    if op.access.Denied? then (DenialStep(e, t, op.actor, op.access, op.stamp), Forbidden)
    else if !Active(t, op.secretId, op.vault, tenant) then (t, NotFound)
    else
      var secret := t.secrets[op.secretId];
      var next := secret.currentVersion + 1;
      match Seal(e, t, tenant, op.vault, op.secretId, next, op.plaintext, op.nonce)
      case SealFailed(why) => (t, why)
      case SealedRow(row) =>
        if (op.secretId, next) in t.versions then (t, IntegrityError)
        else
          var t1 := t.(versions := t.versions[(op.secretId, next) := row],
                       secrets := t.secrets[op.secretId := secret.(currentVersion := next)]);
          match Recording(e, t1, RotationEvent(op.actor, op.vault, op.secretId, next, row.dekVersion), op.stamp)
          case None => (t, IntegrityError)
          case Some(t2) => (t2, Rotated(next))
  }

  function DeleteStep(e: Env, t: Tables, op: Op): (Tables, Outcome)
    requires op.Delete?
  {
    if !op.stepUp then (t, Forbidden)
    else if op.access.Denied? then (DenialStep(e, t, op.actor, op.access, op.stamp), Forbidden)
    else if !Active(t, op.secretId, op.vault, op.actor.tenantId) then (t, NotFound)
    else
      var t1 := t.(secrets := t.secrets[op.secretId := t.secrets[op.secretId].(deleted := true)]);
      match Recording(e, t1, SecretEvent(op.actor, "secret.deleted", op.secretId, [VaultEntry(op.vault)]), op.stamp)
      case None => (t, IntegrityError)
      case Some(t2) => (t2, Deleted)
  }

  // SecretService.reveal after the policy check.
  function RevealValue(e: Env, t: Tables, tenant: Uuid, vault: Uuid, secretId: Uuid, version: Option<int>): Outcome {
    if !Active(t, secretId, vault, tenant) then NotFound
    else
      var wanted := if version.Some? then version.value else t.secrets[secretId].currentVersion;
      if (secretId, wanted) !in t.versions || t.versions[(secretId, wanted)].tenant != tenant then NotFound
      else
        var row := t.versions[(secretId, wanted)];
        match LoadDekVersion(e, t, tenant, row.dekVersion)
        case None => CryptoError
        case Some(dek) =>
          match e.aead.open(dek, row.nonce, row.ciphertext, SecretAad(tenant, vault, secretId, wanted))
          case None => CryptoError
          case Some(bytes) =>
            match Decode(bytes)
            case None => CryptoError
            case Some(text) => Revealed(text, wanted)
  }

  function RevealStep(e: Env, t: Tables, op: Op): (Tables, Outcome)
    requires op.Reveal?
  {
    if op.access.Denied? then (DenialStep(e, t, op.actor, op.access, op.stamp), Forbidden)
    else
      var r := RevealValue(e, t, op.actor.tenantId, op.vault, op.secretId, op.version);
      if !r.Revealed? then (t, r)
      else
        var metadata := [VaultEntry(op.vault), Entry("version", Int(r.version))];
        match Recording(e, t, SecretEvent(op.actor, "secret.revealed", op.secretId, metadata), op.stamp)
        case None => (t, IntegrityError)
        case Some(t') => (t', r)
  }

  function Apply(e: Env, t: Tables, op: Op): (Tables, Outcome) {
    match op
    case Provision(_, _, _) => ProvisionStep(e, t, op)
    case Create(_, _, _, _, _, _, _, _) => CreateStep(e, t, op)
    case Rotate(_, _, _, _, _, _, _) => RotateStep(e, t, op)
    case Delete(_, _, _, _, _, _) => DeleteStep(e, t, op)
    case Reveal(_, _, _, _, _, _) => RevealStep(e, t, op)
  }

  // --- The use cases as the code runs them: repository writes in order, then commit or roll back ---

  class SecretDatabase {
    var secrets: map<Uuid, Secret>
    var names: set<(Uuid, string)>
    var versions: map<(Uuid, int), VersionRow>
    var keys: map<(Uuid, int), KeyRow>
    var activeKey: map<Uuid, int>
    var audit: AuditRows
    const env: Env

    constructor (e: Env)
      ensures env == e && Current() == EMPTY
    {
      env := e;
      secrets, names, versions, keys, activeKey, audit := map[], {}, map[], map[], map[], NO_ROWS;
    }

    function Current(): Tables
      reads this
    {
      Tables(secrets, names, versions, keys, activeKey, audit)
    }

    method Rollback(saved: Tables)
      modifies this
      ensures Current() == saved
    {
      secrets, names, versions := saved.secrets, saved.names, saved.versions;
      keys, activeKey, audit := saved.keys, saved.activeKey, saved.audit;
    }

    method AddSecret(id: Uuid, s: Secret) returns (ok: bool)
      modifies this`secrets, this`names
      ensures ok <==> id !in old(secrets) && (s.vault, s.name) !in old(names)
      ensures secrets == if ok then old(secrets)[id := s] else old(secrets)
      ensures names == if ok then old(names) + {(s.vault, s.name)} else old(names)
    {
      ok := id !in secrets && (s.vault, s.name) !in names;
      if ok { secrets, names := secrets[id := s], names + {(s.vault, s.name)}; }
    }

    method AddVersion(id: Uuid, version: int, row: VersionRow) returns (ok: bool)
      modifies this`versions
      ensures ok <==> (id, version) !in old(versions)
      ensures versions == if ok then old(versions)[(id, version) := row] else old(versions)
    {
      ok := (id, version) !in versions;
      if ok { versions := versions[(id, version) := row]; }
    }

    method UpdateCurrentVersion(id: Uuid, version: int)
      requires id in secrets
      modifies this`secrets
      ensures secrets == old(secrets)[id := old(secrets)[id].(currentVersion := version)]
    {
      secrets := secrets[id := secrets[id].(currentVersion := version)];
    }

    method SoftDelete(id: Uuid, tenant: Uuid) returns (deleted: bool)
      modifies this`secrets
      ensures deleted <==> id in old(secrets) && old(secrets)[id].tenant == tenant && !old(secrets)[id].deleted
      ensures secrets == if deleted then old(secrets)[id := old(secrets)[id].(deleted := true)] else old(secrets)
    {
      deleted := id in secrets && secrets[id].tenant == tenant && !secrets[id].deleted;
      if deleted { secrets := secrets[id := secrets[id].(deleted := true)]; }
    }

    method RecordEvent(r: Request, s: Stamp) returns (ok: bool)
      modifies this`audit
      ensures ok <==> Recording(env, old(Current()), r, s).Some?
      ensures Current() == if ok then Recording(env, old(Current()), r, s).value else old(Current())
    {
      hide RecordStep;
      var (rows, result) := RecordStep(env.hash, env.lower, audit, r, s.id, s.now);
      ok := result == Recorded;
      if ok { audit := rows; }
    }

    // The transaction of RecordAccessDenial.
    method RecordDenial(actor: ActorContext, d: Access, s: Stamp)
      requires d.Denied?
      modifies this`audit
      ensures Current() == DenialStep(env, old(Current()), actor, d, s)
    {
      if d.audited {
        var metadata: seq<Entry> := [];
        if d.attempted.Some? { metadata := [Entry("attempted_action", Str(d.attempted.value))]; }
        var kind := if d.targetType.Some? && d.targetType.value != "" then d.targetType.value else "vault";
        var _ := RecordEvent(Request(actor, "access.denied", kind, d.targetId, "denied", Some(metadata)), s);
      }
    }

    method ProvisionTenantKey(tenant: Uuid, dek: Dek, wrapNonce: Bytes) returns (r: Outcome)
      modifies this`keys, this`activeKey
      ensures (Current(), r) == ProvisionStep(env, old(Current()), Provision(tenant, dek, wrapNonce))
    {
      hide DekWrapAad;
      if tenant in activeKey { return Provisioned(activeKey[tenant]); }
      var wrapped := env.aead.seal(env.kek, wrapNonce, dek, DekWrapAad(tenant, 1));
      if (tenant, 1) in keys { return SecretConflict; }
      keys := keys[(tenant, 1) := KeyRow(wrapped, wrapNonce, KEY_ID)];
      activeKey := activeKey[tenant := 1];
      return Provisioned(1);
    }

    method CreateSecret(actor: ActorContext, access: Access, vault: Uuid, secretId: Uuid, name: string, plaintext: string,
                        nonce: Bytes, stamp: Stamp) returns (r: Outcome)
      modifies this
      ensures (Current(), r) == CreateStep(env, old(Current()), Create(actor, access, vault, secretId, name, plaintext, nonce, stamp))
    {
      hide Recording, Seal, DenialStep;
      if access.Denied? {
        RecordDenial(actor, access, stamp);
        return Forbidden;
      }
      var saved := Current();
      var ok := AddSecret(secretId, Secret(actor.tenantId, vault, name, 1, false));
      if !ok { return SecretConflict; }
      var sealed := Seal(env, Current(), actor.tenantId, vault, secretId, 1, plaintext, nonce);
      if sealed.SealFailed? {
        Rollback(saved);
        return sealed.why;
      }
      ok := AddVersion(secretId, 1, sealed.row);
      if ok { ok := RecordEvent(SecretEvent(actor, "secret.created", secretId, [VaultEntry(vault)]), stamp); }
      if !ok {
        Rollback(saved);
        return IntegrityError;
      }
      return Created;
    }

    method RotateSecret(actor: ActorContext, access: Access, vault: Uuid, secretId: Uuid, plaintext: string,
                        nonce: Bytes, stamp: Stamp) returns (r: Outcome)
      modifies this
      ensures (Current(), r) == RotateStep(env, old(Current()), Rotate(actor, access, vault, secretId, plaintext, nonce, stamp))
    {
      hide Recording, Seal, DenialStep;
      if access.Denied? {
        RecordDenial(actor, access, stamp);
        return Forbidden;
      }
      var saved := Current();
      if !Active(saved, secretId, vault, actor.tenantId) { return NotFound; }
      var next := secrets[secretId].currentVersion + 1;
      var sealed := Seal(env, Current(), actor.tenantId, vault, secretId, next, plaintext, nonce);
      if sealed.SealFailed? { return sealed.why; }
      var ok := AddVersion(secretId, next, sealed.row);
      if ok {
        UpdateCurrentVersion(secretId, next);
        ok := RecordEvent(RotationEvent(actor, vault, secretId, next, sealed.row.dekVersion), stamp);
      }
      if !ok {
        Rollback(saved);
        return IntegrityError;
      }
      return Rotated(next);
    }

    method DeleteSecret(actor: ActorContext, access: Access, stepUp: bool, vault: Uuid, secretId: Uuid, stamp: Stamp) returns (r: Outcome)
      modifies this
      ensures (Current(), r) == DeleteStep(env, old(Current()), Delete(actor, access, stepUp, vault, secretId, stamp))
    {
      hide Recording, DenialStep;
      if !stepUp { return Forbidden; }
      if access.Denied? {
        RecordDenial(actor, access, stamp);
        return Forbidden;
      }
      var saved := Current();
      if !Active(saved, secretId, vault, actor.tenantId) { return NotFound; }
      var deleted := SoftDelete(secretId, actor.tenantId);
      if !deleted { return NotFound; }
      var ok := RecordEvent(SecretEvent(actor, "secret.deleted", secretId, [VaultEntry(vault)]), stamp);
      if !ok {
        Rollback(saved);
        return IntegrityError;
      }
      return Deleted;
    }

    method RevealSecret(actor: ActorContext, access: Access, vault: Uuid, secretId: Uuid, version: Option<int>, stamp: Stamp)
      returns (r: Outcome)
      modifies this
      ensures (Current(), r) == RevealStep(env, old(Current()), Reveal(actor, access, vault, secretId, version, stamp))
    {
      hide Recording, DenialStep, RevealValue;
      if access.Denied? {
        RecordDenial(actor, access, stamp);
        return Forbidden;
      }
      r := RevealValue(env, Current(), actor.tenantId, vault, secretId, version);
      if r.Revealed? {
        var metadata := [VaultEntry(vault), Entry("version", Int(r.version))];
        var ok := RecordEvent(SecretEvent(actor, "secret.revealed", secretId, metadata), stamp);
        if !ok { r := IntegrityError; }
      }
    }
  }

  // --- The specification: each secret is the list of values written to it, and nothing is encrypted ---

  datatype Record = Record(tenant: Uuid, vault: Uuid, name: string, values: seq<string>, deleted: bool)

  // `provisioned`: the tenants with a key.
  datatype Written = Written(records: map<Uuid, Record>, provisioned: set<Uuid>, audit: AuditRows)

  const NOTHING := Written(map[], {}, NO_ROWS)

  predicate NameUsed(w: map<Uuid, Record>, vault: Uuid, name: string) {
    exists id | id in w :: w[id].vault == vault && w[id].name == name
  }

  predicate ActiveRecord(w: map<Uuid, Record>, id: Uuid, vault: Uuid, tenant: Uuid) {
    id in w && w[id].vault == vault && w[id].tenant == tenant && !w[id].deleted
  }

  // The record after a change that commits with its event, or nothing.
  function Change(e: Env, w: Written, id: Uuid, r: Record, request: Request, s: Stamp, done: Outcome): (Written, Outcome) {
    match RecordIn(e, w.audit, request, s)
    case None => (w, IntegrityError)
    case Some(rows) => (w.(records := w.records[id := r], audit := rows), done)
  }

  function SpecReveal(w: map<Uuid, Record>, tenant: Uuid, vault: Uuid, secretId: Uuid, version: Option<int>): Outcome {
    if !ActiveRecord(w, secretId, vault, tenant) then NotFound
    else
      var n := |w[secretId].values|;
      var k := if version.Some? then version.value else n;
      if 1 <= k <= n then Revealed(w[secretId].values[k - 1], k) else NotFound
  }

  function SpecCreate(e: Env, w: Written, op: Op): (Written, Outcome)
    requires op.Create?
  {
    if op.secretId in w.records || NameUsed(w.records, op.vault, op.name) then (w, SecretConflict)
    else if op.actor.tenantId !in w.provisioned then (w, NoActiveKey)
    else
      Change(e, w, op.secretId, Record(op.actor.tenantId, op.vault, op.name, [op.plaintext], false),
             SecretEvent(op.actor, "secret.created", op.secretId, [VaultEntry(op.vault)]), op.stamp, Created)
  }

  function SpecRotate(e: Env, w: Written, op: Op): (Written, Outcome)
    requires op.Rotate?
  {
    if !ActiveRecord(w.records, op.secretId, op.vault, op.actor.tenantId) then (w, NotFound)
    else
      var r := w.records[op.secretId];
      var n := |r.values| + 1;
      Change(e, w, op.secretId, r.(values := r.values + [op.plaintext]),
             RotationEvent(op.actor, op.vault, op.secretId, n, 1), op.stamp, Rotated(n))
  }

  function SpecStep(e: Env, w: Written, op: Op): (Written, Outcome) {
    if op.Provision? then (w.(provisioned := w.provisioned + {op.tenant}), Provisioned(1))
    else if op.Delete? && !op.stepUp then (w, Forbidden)
    else if op.access.Denied? then (w.(audit := Denial(e, w.audit, op.actor, op.access, op.stamp)), Forbidden)
    else
      match op
      case Create(_, _, _, _, _, _, _, _) => SpecCreate(e, w, op)
      case Rotate(_, _, _, _, _, _, _) => SpecRotate(e, w, op)
      case Delete(actor, _, _, vault, id, stamp) =>
        if !ActiveRecord(w.records, id, vault, actor.tenantId) then (w, NotFound)
        else Change(e, w, id, w.records[id].(deleted := true), SecretEvent(actor, "secret.deleted", id, [VaultEntry(vault)]), stamp, Deleted)
      case Reveal(actor, _, vault, id, version, stamp) =>
        var r := SpecReveal(w.records, actor.tenantId, vault, id, version);
        if !r.Revealed? then (w, r)
        else
          match RecordIn(e, w.audit, SecretEvent(actor, "secret.revealed", id, [VaultEntry(vault), Entry("version", Int(r.version))]), stamp)
          case None => (w, IntegrityError)
          case Some(rows) => (w.(audit := rows), r)
  }

  // --- The stored rows hold the written values ---

  // Key rows wrap some 32-byte key under their own tenant and version.
  ghost predicate KeyOk(e: Env, row: KeyRow, tenant: Uuid, version: int) {
    row.keyId == KEY_ID && exists dek: Dek :: row.wrapped == e.aead.seal(e.kek, row.nonce, dek, DekWrapAad(tenant, version))
  }

  ghost predicate RowHolds(e: Env, t: Tables, s: Secret, secretId: Uuid, version: int, row: VersionRow, text: string) {
    && row.tenant == s.tenant
    && LoadDekVersion(e, t, s.tenant, row.dekVersion).Some?
    && row.ciphertext == e.aead.seal(LoadDekVersion(e, t, s.tenant, row.dekVersion).value, row.nonce, Encode(text),
                                     SecretAad(s.tenant, s.vault, secretId, version))
  }

  ghost predicate KeysOk(e: Env, t: Tables) {
    && (forall k :: k in t.keys ==> KeyOk(e, t.keys[k], k.0, k.1))
    && (forall x :: x in t.activeKey ==> (x, t.activeKey[x]) in t.keys)
  }

  ghost predicate SecretHolds(e: Env, t: Tables, id: Uuid, s: Secret, r: Record) {
    && s.tenant == r.tenant && s.vault == r.vault && s.name == r.name && s.deleted == r.deleted
    && s.currentVersion == |r.values| && r.values != []
    && (forall k :: (id, k) in t.versions <==> 1 <= k <= |r.values|)
    && (forall k :: 1 <= k <= |r.values| ==> RowHolds(e, t, s, id, k, t.versions[(id, k)], r.values[k - 1]))
  }

  // Each provisioned tenant has version 1 of its key and no other.
  ghost predicate KeysMatch(t: Tables, provisioned: set<Uuid>) {
    && t.activeKey.Keys == provisioned
    && (forall x :: x in t.activeKey ==> t.activeKey[x] == 1)
    && (forall k :: k in t.keys <==> k.0 in provisioned && k.1 == 1)
  }

  ghost predicate NamesMatch(t: Tables, w: map<Uuid, Record>) {
    forall vault, name :: (vault, name) in t.names <==> NameUsed(w, vault, name)
  }

  ghost predicate RowsMatch(e: Env, t: Tables, w: map<Uuid, Record>) {
    && KeysOk(e, t)
    && t.secrets.Keys == w.Keys
    && (forall x :: x in t.versions ==> x.0 in t.secrets)
    && (forall id :: id in t.secrets ==> SecretHolds(e, t, id, t.secrets[id], w[id]))
  }

  ghost predicate Represents(e: Env, t: Tables, w: Written) {
    && RowsMatch(e, t, w.records) && KeysMatch(t, w.provisioned) && NamesMatch(t, w.records)
    && TenantsMatch(w.records, w.provisioned)
    && t.audit == w.audit
  }

  ghost predicate TenantsMatch(w: map<Uuid, Record>, provisioned: set<Uuid>) {
    forall id :: id in w ==> w[id].tenant in provisioned
  }

  lemma UnwrapsOk(e: Env, t: Tables, tenant: Uuid, version: int)
    requires Lawful(e.aead) && KeysOk(e, t) && (tenant, version) in t.keys
    ensures LoadDekVersion(e, t, tenant, version).Some? && |LoadDekVersion(e, t, tenant, version).value| == DEK_SIZE
  {
    hide DekWrapAad;
    assert KeyOk(e, t.keys[(tenant, version)], tenant, version);
    var dek: Dek :| t.keys[(tenant, version)].wrapped == e.aead.seal(e.kek, t.keys[(tenant, version)].nonce, dek, DekWrapAad(tenant, version));
  }

  ghost predicate KeysKept(a: Tables, b: Tables) {
    forall k :: k in a.keys ==> k in b.keys && b.keys[k] == a.keys[k]
  }

  lemma HoldsUnderKeys(e: Env, a: Tables, b: Tables, id: Uuid, s: Secret, r: Record)
    requires SecretHolds(e, a, id, s, r) && KeysKept(a, b)
    requires forall k: int :: ((id, k) in b.versions <==> (id, k) in a.versions) && ((id, k) in a.versions ==> b.versions[(id, k)] == a.versions[(id, k)])
    ensures SecretHolds(e, b, id, s, r)
  {
    hide SecretAad, DekWrapAad, Encode;
    forall k | 1 <= k <= |r.values| ensures RowHolds(e, b, s, id, k, b.versions[(id, k)], r.values[k - 1]) {
      assert RowHolds(e, a, s, id, k, a.versions[(id, k)], r.values[k - 1]);
    }
  }

  lemma AuditDoesNotMatter(e: Env, t: Tables, audit: AuditRows, w: map<Uuid, Record>)
    requires RowsMatch(e, t, w)
    ensures RowsMatch(e, t.(audit := audit), w)
  {
    hide SecretHolds, KeyOk, KeysOk;
    var t' := t.(audit := audit);
    SameKeysOk(e, t, t');
    SameSecrets(e, t, t', w);
  }

  lemma SealHolds(e: Env, t: Tables, s: Secret, secretId: Uuid, version: int, plaintext: string, nonce: Bytes)
    requires Seal(e, t, s.tenant, s.vault, secretId, version, plaintext, nonce).SealedRow?
    ensures RowHolds(e, t, s, secretId, version, Seal(e, t, s.tenant, s.vault, secretId, version, plaintext, nonce).row, plaintext)
  {
    hide SecretAad, DekWrapAad, Encode;
  }

  // With a key, encrypting never fails.
  lemma SealSucceeds(e: Env, t: Tables, provisioned: set<Uuid>, tenant: Uuid, vault: Uuid, secretId: Uuid, version: int, plaintext: string, nonce: Bytes)
    requires Lawful(e.aead) && KeysOk(e, t) && KeysMatch(t, provisioned)
    ensures var r := Seal(e, t, tenant, vault, secretId, version, plaintext, nonce);
            if tenant in provisioned then r.SealedRow? && r.row.dekVersion == 1 else r == SealFailed(NoActiveKey)
  {
    hide SecretAad, DekWrapAad, Encode, LoadDekVersion, KeysOk, Lawful;
    if tenant in provisioned { UnwrapsOk(e, t, tenant, 1); }
  }

  lemma SameSecrets(e: Env, t: Tables, t': Tables, w: map<Uuid, Record>)
    requires RowsMatch(e, t, w) && KeysKept(t, t') && KeysOk(e, t') && t'.secrets == t.secrets && t'.versions == t.versions
    ensures RowsMatch(e, t', w)
  {
    hide SecretHolds, KeysOk;
    forall id | id in t.secrets ensures SecretHolds(e, t', id, t'.secrets[id], w[id]) {
      HoldsUnderKeys(e, t, t', id, t.secrets[id], w[id]);
    }
  }

  lemma WrappedKeyOk(e: Env, dek: Dek, nonce: Bytes, tenant: Uuid)
    ensures KeyOk(e, KeyRow(e.aead.seal(e.kek, nonce, dek, DekWrapAad(tenant, 1)), nonce, KEY_ID), tenant, 1)
  {
    hide DekWrapAad;
  }

  // A new version row on top of secret `id`, whose record becomes `r`.
  lemma AddedVersion(e: Env, t: Tables, w: map<Uuid, Record>, id: Uuid, s: Secret, row: VersionRow, r: Record, names: set<(Uuid, string)>)
    requires RowsMatch(e, t, w)
    requires s.tenant == r.tenant && s.vault == r.vault && s.name == r.name && s.deleted == r.deleted && s.currentVersion == |r.values| && r.values != []
    requires RowHolds(e, t, s, id, |r.values|, row, r.values[|r.values| - 1])
    requires if |r.values| == 1 then id !in t.secrets
             else && id in t.secrets && w[id].values == r.values[..|r.values| - 1] && w[id].tenant == r.tenant && w[id].vault == r.vault
    ensures RowsMatch(e, t.(secrets := t.secrets[id := s], versions := t.versions[(id, |r.values|) := row], names := names), w[id := r])
  {
    hide SecretHolds, RowHolds, KeysOk;
    var n := |r.values|;
    var t' := t.(secrets := t.secrets[id := s], versions := t.versions[(id, n) := row], names := names);
    SameKeysOk(e, t, t');
    forall x | x in t.secrets && x != id ensures SecretHolds(e, t', x, t.secrets[x], w[x]) {
      HoldsUnderKeys(e, t, t', x, t.secrets[x], w[x]);
    }
    GrownHolds(e, t, t', id, w, s, row, r);
  }

  lemma GrownHolds(e: Env, t: Tables, t': Tables, id: Uuid, w: map<Uuid, Record>, s: Secret, row: VersionRow, r: Record)
    requires RowsMatch(e, t, w) && t'.keys == t.keys && t'.versions == t.versions[(id, |r.values|) := row]
    requires s.tenant == r.tenant && s.vault == r.vault && s.name == r.name && s.deleted == r.deleted && s.currentVersion == |r.values| && r.values != []
    requires RowHolds(e, t, s, id, |r.values|, row, r.values[|r.values| - 1])
    requires if |r.values| == 1 then id !in t.secrets
             else && id in t.secrets && w[id].values == r.values[..|r.values| - 1] && w[id].tenant == r.tenant && w[id].vault == r.vault
    ensures SecretHolds(e, t', id, s, r)
  {
    hide SecretAad, DekWrapAad, Encode, RowHolds, KeysOk;
    var n := |r.values|;
    if n > 1 { assert SecretHolds(e, t, id, t.secrets[id], w[id]); }
    forall k | 1 <= k <= n ensures RowHolds(e, t', s, id, k, t'.versions[(id, k)], r.values[k - 1]) {
      if k < n {
        assert RowHolds(e, t, t.secrets[id], id, k, t.versions[(id, k)], w[id].values[k - 1]);
        SameSecretRow(e, t, t', t.secrets[id], s, id, k, t.versions[(id, k)], r.values[k - 1]);
      } else {
        SameSecretRow(e, t, t', s, s, id, k, row, r.values[k - 1]);
      }
    }
  }

  lemma SameKeysOk(e: Env, t: Tables, t': Tables)
    requires KeysOk(e, t) && t'.keys == t.keys && t'.activeKey == t.activeKey
    ensures KeysOk(e, t')
  {
    hide KeyOk;
  }

  lemma SameSecretRow(e: Env, t: Tables, t': Tables, s: Secret, s': Secret, id: Uuid, k: int, row: VersionRow, text: string)
    requires RowHolds(e, t, s, id, k, row, text) && t'.keys == t.keys && s'.tenant == s.tenant && s'.vault == s.vault
    ensures RowHolds(e, t', s', id, k, row, text)
  {
    hide SecretAad, DekWrapAad, Encode;
  }

  lemma RepresentedRecord(e: Env, t: Tables, w: map<Uuid, Record>, id: Uuid)
    requires RowsMatch(e, t, w)
    ensures id in t.secrets <==> id in w
    ensures id in t.secrets ==>
              && t.secrets[id].tenant == w[id].tenant && t.secrets[id].vault == w[id].vault && t.secrets[id].name == w[id].name
              && t.secrets[id].deleted == w[id].deleted && t.secrets[id].currentVersion == |w[id].values| && w[id].values != []
    ensures forall k :: (id, k) in t.versions <==> id in w && 1 <= k <= |w[id].values|
  {
    hide RowHolds, KeysOk;
    if id in t.secrets { assert SecretHolds(e, t, id, t.secrets[id], w[id]); }
    forall k ensures (id, k) in t.versions <==> id in w && 1 <= k <= |w[id].values| {
      assert (id, k) in t.versions ==> (id, k).0 in t.secrets;
    }
  }

  lemma SameKeysMatch(t: Tables, t': Tables, provisioned: set<Uuid>)
    requires KeysMatch(t, provisioned) && t'.keys == t.keys && t'.activeKey == t.activeKey
    ensures KeysMatch(t', provisioned)
  {
  }

  lemma RowsHaveKeys(e: Env, t: Tables, w: map<Uuid, Record>)
    requires RowsMatch(e, t, w)
    ensures KeysOk(e, t)
  {
  }

  // A record written for a new id, or over one with the same vault and name.
  lemma NamesAfter(w: map<Uuid, Record>, id: Uuid, r: Record)
    requires id in w ==> w[id].vault == r.vault && w[id].name == r.name
    ensures forall vault, name :: NameUsed(w[id := r], vault, name) <==> NameUsed(w, vault, name) || (vault == r.vault && name == r.name)
    ensures id in w ==> NameUsed(w, r.vault, r.name)
  {
    var w' := w[id := r];
    forall vault, name ensures NameUsed(w', vault, name) <==> NameUsed(w, vault, name) || (vault == r.vault && name == r.name) {
      if NameUsed(w, vault, name) {
        var k :| k in w && w[k].vault == vault && w[k].name == name;
        assert w'[k].vault == vault && w'[k].name == name;
      }
      if vault == r.vault && name == r.name { assert w'[id].vault == vault && w'[id].name == name; }
    }
  }

  // Tables whose rows match the changed record, with the audit rows of its event.
  lemma ChangeRepresented(e: Env, t: Tables, w: Written, mid: Tables, id: Uuid, r: Record, audit: AuditRows)
    requires Represents(e, t, w) && RowsMatch(e, mid, w.records[id := r])
    requires mid.keys == t.keys && mid.activeKey == t.activeKey && r.tenant in w.provisioned
    requires if id in w.records then w.records[id].vault == r.vault && w.records[id].name == r.name && mid.names == t.names
             else mid.names == t.names + {(r.vault, r.name)}
    ensures Represents(e, mid.(audit := audit), w.(records := w.records[id := r], audit := audit))
  {
    hide *;
    RepresentsAll(e, t, w);
    NamesChanged(t, mid.(audit := audit), w.records, id, r);
    AuditDoesNotMatter(e, mid, audit, w.records[id := r]);
    SameKeysMatch(t, mid.(audit := audit), w.provisioned);
    TenantsChanged(w.records, w.provisioned, id, r);
    Assembled(e, mid.(audit := audit), w.(records := w.records[id := r], audit := audit));
  }

  lemma Assembled(e: Env, t: Tables, w: Written)
    requires RowsMatch(e, t, w.records) && KeysMatch(t, w.provisioned) && NamesMatch(t, w.records)
    requires TenantsMatch(w.records, w.provisioned) && t.audit == w.audit
    ensures Represents(e, t, w)
  {
    hide RowsMatch, KeysMatch, NamesMatch, TenantsMatch;
  }

  lemma TenantsChanged(w: map<Uuid, Record>, provisioned: set<Uuid>, id: Uuid, r: Record)
    requires TenantsMatch(w, provisioned) && r.tenant in provisioned
    ensures TenantsMatch(w[id := r], provisioned)
  {
  }

  lemma NamesChanged(t: Tables, t': Tables, w: map<Uuid, Record>, id: Uuid, r: Record)
    requires NamesMatch(t, w)
    requires if id in w then w[id].vault == r.vault && w[id].name == r.name && t'.names == t.names
             else t'.names == t.names + {(r.vault, r.name)}
    ensures NamesMatch(t', w[id := r])
  {
    NamesAfter(w, id, r);
    hide NameUsed;
  }

  lemma SameNames(t: Tables, t': Tables, w: map<Uuid, Record>)
    requires NamesMatch(t, w) && t'.names == t.names
    ensures NamesMatch(t', w)
  {
    hide NameUsed;
  }

  lemma CreateSimulates(e: Env, t: Tables, w: Written, op: Op)
    requires Lawful(e.aead) && Represents(e, t, w) && op.Create? && op.access.Allowed?
    ensures var (t', r) := CreateStep(e, t, op);
            var (w', r') := SpecCreate(e, w, op);
            r == r' && Represents(e, t', w')
  {
    hide *;
    CreateParts(e, t, w, op);
    RepresentsParts(e, t, w);
    RepresentedRecord(e, t, w.records, op.secretId);
    RowsHaveKeys(e, t, w.records);
    var s := Secret(op.actor.tenantId, op.vault, op.name, 1, false);
    var t1 := t.(secrets := t.secrets[op.secretId := s], names := t.names + {(op.vault, op.name)});
    SameKeysOk(e, t, t1);
    SameKeysMatch(t, t1, w.provisioned);
    SealSucceeds(e, t1, w.provisioned, s.tenant, s.vault, op.secretId, 1, op.plaintext, op.nonce);
    if op.secretId !in w.records && !NameUsed(w.records, op.vault, op.name) && s.tenant in w.provisioned {
      var row := Seal(e, t1, s.tenant, s.vault, op.secretId, 1, op.plaintext, op.nonce).row;
      var r := Record(s.tenant, s.vault, s.name, [op.plaintext], false);
      SealHolds(e, t1, s, op.secretId, 1, op.plaintext, op.nonce);
      SameSecretRow(e, t1, t, s, s, op.secretId, 1, row, op.plaintext);
      AddedVersion(e, t, w.records, op.secretId, s, row, r, t1.names);
      var t2 := t1.(versions := t1.versions[(op.secretId, 1) := row]);
      var recorded := RecordIn(e, t.audit, SecretEvent(op.actor, "secret.created", op.secretId, [VaultEntry(op.vault)]), op.stamp);
      if recorded.Some? { ChangeRepresented(e, t, w, t2, op.secretId, r, recorded.value); }
    }
  }

  lemma RepresentsAll(e: Env, t: Tables, w: Written)
    requires Represents(e, t, w)
    ensures RowsMatch(e, t, w.records) && KeysMatch(t, w.provisioned) && NamesMatch(t, w.records)
    ensures TenantsMatch(w.records, w.provisioned) && t.audit == w.audit
  {
  }

  lemma RepresentsParts(e: Env, t: Tables, w: Written)
    requires Represents(e, t, w)
    ensures RowsMatch(e, t, w.records) && KeysMatch(t, w.provisioned) && t.audit == w.audit
    ensures forall vault, name :: (vault, name) in t.names <==> NameUsed(w.records, vault, name)
    ensures forall id :: id in w.records ==> w.records[id].tenant in w.provisioned
  {
    RepresentsAll(e, t, w);
    hide RowsMatch, KeysMatch, NameUsed, Represents;
  }

  // What the two creations come to.
  lemma CreateParts(e: Env, t: Tables, w: Written, op: Op)
    requires op.Create? && op.access.Allowed?
    ensures var tenant := op.actor.tenantId;
            var request := SecretEvent(op.actor, "secret.created", op.secretId, [VaultEntry(op.vault)]);
            var t1 := t.(secrets := t.secrets[op.secretId := Secret(tenant, op.vault, op.name, 1, false)],
                         names := t.names + {(op.vault, op.name)});
            var sealed := Seal(e, t1, tenant, op.vault, op.secretId, 1, op.plaintext, op.nonce);
            && CreateStep(e, t, op) ==
               (if op.secretId in t.secrets || (op.vault, op.name) in t.names then (t, SecretConflict)
                else if sealed.SealFailed? then (t, sealed.why)
                else if (op.secretId, 1) in t.versions || RecordIn(e, t.audit, request, op.stamp).None? then (t, IntegrityError)
                else (t1.(versions := t1.versions[(op.secretId, 1) := sealed.row], audit := RecordIn(e, t.audit, request, op.stamp).value), Created))
            && SpecCreate(e, w, op) ==
               (if op.secretId in w.records || NameUsed(w.records, op.vault, op.name) then (w, SecretConflict)
                else if tenant !in w.provisioned then (w, NoActiveKey)
                else if RecordIn(e, w.audit, request, op.stamp).None? then (w, IntegrityError)
                else (w.(records := w.records[op.secretId := Record(tenant, op.vault, op.name, [op.plaintext], false)],
                         audit := RecordIn(e, w.audit, request, op.stamp).value), Created))
  {
    hide Seal, RecordIn, NameUsed;
  }

  lemma RotateSimulates(e: Env, t: Tables, w: Written, op: Op)
    requires Lawful(e.aead) && Represents(e, t, w) && op.Rotate? && op.access.Allowed?
    ensures var (t', r) := RotateStep(e, t, op);
            var (w', r') := SpecRotate(e, w, op);
            r == r' && Represents(e, t', w')
  {
    hide *;
    RotateParts(e, t, w, op);
    RepresentsParts(e, t, w);
    ActiveAgrees(e, t, w.records, op.secretId, op.vault, op.actor.tenantId);
    RepresentedRecord(e, t, w.records, op.secretId);
    RowsHaveKeys(e, t, w.records);
    if Active(t, op.secretId, op.vault, op.actor.tenantId) {
      ActiveMeans(t, op.secretId, op.vault, op.actor.tenantId);
      var old', rec := t.secrets[op.secretId], w.records[op.secretId];
      var next := old'.currentVersion + 1;
      var s := old'.(currentVersion := next);
      SealSucceeds(e, t, w.provisioned, s.tenant, s.vault, op.secretId, next, op.plaintext, op.nonce);
      var row := Seal(e, t, s.tenant, s.vault, op.secretId, next, op.plaintext, op.nonce).row;
      SealHolds(e, t, s, op.secretId, next, op.plaintext, op.nonce);
      var rec' := rec.(values := rec.values + [op.plaintext]);
      assert rec'.values[..|rec'.values| - 1] == rec.values;
      AddedVersion(e, t, w.records, op.secretId, s, row, rec', t.names);
      var t1 := t.(secrets := t.secrets[op.secretId := s], versions := t.versions[(op.secretId, next) := row]);
      assert t1 == t.(secrets := t.secrets[op.secretId := s], versions := t.versions[(op.secretId, |rec'.values|) := row], names := t.names);
      var recorded := RecordIn(e, t.audit, RotationEvent(op.actor, op.vault, op.secretId, next, 1), op.stamp);
      if recorded.Some? { ChangeRepresented(e, t, w, t1, op.secretId, rec', recorded.value); }
    }
  }

  lemma ActiveMeans(t: Tables, id: Uuid, vault: Uuid, tenant: Uuid)
    requires Active(t, id, vault, tenant)
    ensures id in t.secrets && t.secrets[id].vault == vault && t.secrets[id].tenant == tenant && !t.secrets[id].deleted
  {
  }

  lemma ActiveAgrees(e: Env, t: Tables, w: map<Uuid, Record>, id: Uuid, vault: Uuid, tenant: Uuid)
    requires RowsMatch(e, t, w)
    ensures Active(t, id, vault, tenant) <==> ActiveRecord(w, id, vault, tenant)
  {
    RepresentedRecord(e, t, w, id);
    hide RowsMatch;
  }

  lemma RotateParts(e: Env, t: Tables, w: Written, op: Op)
    requires op.Rotate? && op.access.Allowed?
    ensures !Active(t, op.secretId, op.vault, op.actor.tenantId) ==> RotateStep(e, t, op) == (t, NotFound)
    ensures Active(t, op.secretId, op.vault, op.actor.tenantId) ==>
              op.secretId in t.secrets &&
              var next := t.secrets[op.secretId].currentVersion + 1;
              var sealed := Seal(e, t, op.actor.tenantId, op.vault, op.secretId, next, op.plaintext, op.nonce);
              RotateStep(e, t, op) ==
              if sealed.SealFailed? then (t, sealed.why)
              else
                var recorded := RecordIn(e, t.audit, RotationEvent(op.actor, op.vault, op.secretId, next, sealed.row.dekVersion), op.stamp);
                if (op.secretId, next) in t.versions || recorded.None? then (t, IntegrityError)
                else (t.(secrets := t.secrets[op.secretId := t.secrets[op.secretId].(currentVersion := next)],
                         versions := t.versions[(op.secretId, next) := sealed.row], audit := recorded.value), Rotated(next))
    ensures !ActiveRecord(w.records, op.secretId, op.vault, op.actor.tenantId) ==> SpecRotate(e, w, op) == (w, NotFound)
    ensures ActiveRecord(w.records, op.secretId, op.vault, op.actor.tenantId) ==>
              op.secretId in w.records &&
              var r := w.records[op.secretId];
              var n := |r.values| + 1;
              var recorded := RecordIn(e, w.audit, RotationEvent(op.actor, op.vault, op.secretId, n, 1), op.stamp);
              SpecRotate(e, w, op) ==
              if recorded.None? then (w, IntegrityError)
              else (w.(records := w.records[op.secretId := r.(values := r.values + [op.plaintext])], audit := recorded.value), Rotated(n))
  {
    hide Seal, RecordIn, RotationEvent;
  }

  lemma DeleteSimulates(e: Env, t: Tables, w: Written, op: Op)
    requires Represents(e, t, w) && op.Delete?
    ensures var (t', r) := DeleteStep(e, t, op);
            var (w', r') := SpecStep(e, w, op);
            r == r' && Represents(e, t', w')
  {
    hide Represents, RecordIn, Denial, RowsMatch;
    RepresentsParts(e, t, w);
    ActiveAgrees(e, t, w.records, op.secretId, op.vault, op.actor.tenantId);
    if !op.stepUp {
    } else if op.access.Denied? {
      OnlyAudit(e, t, w, Denial(e, t.audit, op.actor, op.access, op.stamp));
    } else if Active(t, op.secretId, op.vault, op.actor.tenantId) {
      MarkedDeleted(e, t, w.records, op.secretId);
      var t1 := t.(secrets := t.secrets[op.secretId := t.secrets[op.secretId].(deleted := true)]);
      var recorded := RecordIn(e, t.audit, SecretEvent(op.actor, "secret.deleted", op.secretId, [VaultEntry(op.vault)]), op.stamp);
      if recorded.Some? {
        ChangeRepresented(e, t, w, t1, op.secretId, w.records[op.secretId].(deleted := true), recorded.value);
      }
    }
  }

  lemma OnlyAudit(e: Env, t: Tables, w: Written, audit: AuditRows)
    requires Represents(e, t, w)
    ensures Represents(e, t.(audit := audit), w.(audit := audit))
  {
    hide *;
    RepresentsAll(e, t, w);
    AuditDoesNotMatter(e, t, audit, w.records);
    SameKeysMatch(t, t.(audit := audit), w.provisioned);
    SameNames(t, t.(audit := audit), w.records);
    Assembled(e, t.(audit := audit), w.(audit := audit));
  }

  lemma MarkedDeleted(e: Env, t: Tables, w: map<Uuid, Record>, id: Uuid)
    requires RowsMatch(e, t, w) && id in t.secrets
    ensures RowsMatch(e, t.(secrets := t.secrets[id := t.secrets[id].(deleted := true)]), w[id := w[id].(deleted := true)])
  {
    hide SecretAad, DekWrapAad, Encode, RowHolds, KeysOk;
    var s := t.secrets[id].(deleted := true);
    var t' := t.(secrets := t.secrets[id := s]);
    SameKeysOk(e, t, t');
    forall x | x in t.secrets ensures SecretHolds(e, t', x, t'.secrets[x], w[id := w[id].(deleted := true)][x]) {
      assert SecretHolds(e, t, x, t.secrets[x], w[x]);
      forall k | 1 <= k <= |w[x].values| ensures RowHolds(e, t', t'.secrets[x], x, k, t'.versions[(x, k)], w[x].values[k - 1]) {
        SameSecretRow(e, t, t', t.secrets[x], t'.secrets[x], x, k, t.versions[(x, k)], w[x].values[k - 1]);
      }
    }
  }

  lemma ProvisionSimulates(e: Env, t: Tables, w: Written, op: Op)
    requires Represents(e, t, w) && op.Provision?
    ensures var (t', r) := ProvisionStep(e, t, op);
            var (w', r') := SpecStep(e, w, op);
            r == r' && Represents(e, t', w')
  {
    hide DekWrapAad, KeyOk, KeysOk, RowsMatch, KeysMatch, NamesMatch, TenantsMatch, Represents;
    RepresentsAll(e, t, w);
    KeyOfTenant(t, w.provisioned, op.tenant);
    if op.tenant in w.provisioned {
      assert w.provisioned + {op.tenant} == w.provisioned;
    } else {
      var t' := ProvisionStep(e, t, op).0;
      RowsHaveKeys(e, t, w.records);
      ProvisionedKeys(e, t, w.provisioned, op);
      SameSecrets(e, t, t', w.records);
      SameNames(t, t', w.records);
      MoreTenants(w.records, w.provisioned, op.tenant);
      Assembled(e, t', w.(provisioned := w.provisioned + {op.tenant}));
    }
  }

  lemma KeyOfTenant(t: Tables, provisioned: set<Uuid>, tenant: Uuid)
    requires KeysMatch(t, provisioned)
    ensures tenant in t.activeKey <==> tenant in provisioned
    ensures tenant in provisioned ==> t.activeKey[tenant] == 1
    ensures (tenant, 1) in t.keys <==> tenant in provisioned
  {
    assert (tenant, 1).0 == tenant;
  }

  lemma MoreTenants(w: map<Uuid, Record>, provisioned: set<Uuid>, tenant: Uuid)
    requires TenantsMatch(w, provisioned)
    ensures TenantsMatch(w, provisioned + {tenant})
  {
  }

  lemma ProvisionedKeys(e: Env, t: Tables, provisioned: set<Uuid>, op: Op)
    requires op.Provision? && KeysOk(e, t) && KeysMatch(t, provisioned) && op.tenant !in provisioned
    ensures var t' := ProvisionStep(e, t, op).0;
            KeysOk(e, t') && KeysMatch(t', provisioned + {op.tenant}) && KeysKept(t, t')
  {
    hide DekWrapAad, KeyOk;
    KeyOfTenant(t, provisioned, op.tenant);
    WrappedKeyOk(e, op.dek, op.wrapNonce, op.tenant);
  }

  // Reading matching rows is reading the written values.
  lemma RevealIsSpec(e: Env, t: Tables, w: map<Uuid, Record>, tenant: Uuid, vault: Uuid, secretId: Uuid, version: Option<int>)
    requires Lawful(e.aead) && RowsMatch(e, t, w)
    ensures RevealValue(e, t, tenant, vault, secretId, version) == SpecReveal(w, tenant, vault, secretId, version)
  {
    hide SecretAad, DekWrapAad, Encode, Decode, KeysOk, Unwrap;
    RepresentedRecord(e, t, w, secretId);
    if Active(t, secretId, vault, tenant) {
      var k := if version.Some? then version.value else t.secrets[secretId].currentVersion;
      assert SecretHolds(e, t, secretId, t.secrets[secretId], w[secretId]);
      if (secretId, k) in t.versions {
        assert RowHolds(e, t, t.secrets[secretId], secretId, k, t.versions[(secretId, k)], w[secretId].values[k - 1]);
        DecodeEncode(w[secretId].values[k - 1]);
      }
    }
  }

  lemma RevealSimulates(e: Env, t: Tables, w: Written, op: Op)
    requires Lawful(e.aead) && Represents(e, t, w) && op.Reveal? && op.access.Allowed?
    ensures var (t', r) := RevealStep(e, t, op);
            var (w', r') := SpecStep(e, w, op);
            r == r' && Represents(e, t', w')
  {
    hide Represents, RecordIn, RevealValue, SpecReveal, Lawful, RowsMatch;
    RepresentsParts(e, t, w);
    RevealIsSpec(e, t, w.records, op.actor.tenantId, op.vault, op.secretId, op.version);
    var r := RevealValue(e, t, op.actor.tenantId, op.vault, op.secretId, op.version);
    if r.Revealed? {
      var metadata := [VaultEntry(op.vault), Entry("version", Int(r.version))];
      var recorded := RecordIn(e, t.audit, SecretEvent(op.actor, "secret.revealed", op.secretId, metadata), op.stamp);
      if recorded.Some? { OnlyAudit(e, t, w, recorded.value); }
    }
  }

  lemma DeniedSimulates(e: Env, t: Tables, w: Written, op: Op)
    requires Represents(e, t, w) && !op.Provision? && !op.Delete? && op.access.Denied?
    ensures var (t', r) := Apply(e, t, op);
            var (w', r') := SpecStep(e, w, op);
            r == r' && Represents(e, t', w')
  {
    hide Denial, Represents;
    RepresentsAll(e, t, w);
    OnlyAudit(e, t, w, Denial(e, t.audit, op.actor, op.access, op.stamp));
  }

  // The simulation: every use case answers as the specification does, failures included, and keeps the
  // encrypted rows a representation of the written values.
  lemma StepSimulates(e: Env, t: Tables, w: Written, op: Op)
    requires Lawful(e.aead) && Represents(e, t, w)
    ensures var (t', r) := Apply(e, t, op);
            var (w', r') := SpecStep(e, w, op);
            r == r' && Represents(e, t', w')
  {
    hide Represents, Lawful, CreateStep, RotateStep, DeleteStep, RevealStep, ProvisionStep, SpecCreate, SpecRotate;
    if op.Provision? { ProvisionSimulates(e, t, w, op); }
    else if op.Delete? { DeleteSimulates(e, t, w, op); }
    else if op.access.Denied? { DeniedSimulates(e, t, w, op); }
    else if op.Create? { CreateSimulates(e, t, w, op); }
    else if op.Rotate? { RotateSimulates(e, t, w, op); }
    else { RevealSimulates(e, t, w, op); }
  }

  // --- Runs ---

  function After(e: Env, ops: seq<Op>): Tables {
    if ops == [] then EMPTY else Apply(e, After(e, ops[..|ops| - 1]), ops[|ops| - 1]).0
  }

  // What the specification makes of the same operations.
  function WrittenAfter(e: Env, ops: seq<Op>): Written {
    if ops == [] then NOTHING else SpecStep(e, WrittenAfter(e, ops[..|ops| - 1]), ops[|ops| - 1]).0
  }

  lemma {:induction false} RunRepresents(e: Env, ops: seq<Op>)
    requires Lawful(e.aead)
    ensures Represents(e, After(e, ops), WrittenAfter(e, ops))
  {
    hide Represents, Apply, SpecStep, Lawful;
    if ops == [] {
      EmptyRepresents(e);
    } else {
      var before := ops[..|ops| - 1];
      RunRepresents(e, before);
      StepSimulates(e, After(e, before), WrittenAfter(e, before), ops[|ops| - 1]);
    }
  }

  lemma EmptyRepresents(e: Env)
    ensures Represents(e, EMPTY, NOTHING)
  {
  }

  // Main result: after any run, every operation answers what the specification answers, revealing
  // version k of an active secret gives the k-th value written to it, revealing without a version the
  // last, everything else is not found, and the audit rows are those of the specification.
  lemma StoreRefinesWrittenValues(e: Env, ops: seq<Op>, op: Op, tenant: Uuid, vault: Uuid, secretId: Uuid, version: Option<int>)
    requires Lawful(e.aead)
    ensures var t, w := After(e, ops), WrittenAfter(e, ops);
            && Apply(e, t, op).1 == SpecStep(e, w, op).1
            && RevealValue(e, t, tenant, vault, secretId, version) == SpecReveal(w.records, tenant, vault, secretId, version)
            && t.audit == w.audit
  {
    hide Represents, RevealValue, SpecReveal, Apply, SpecStep, Lawful, After, WrittenAfter, RowsMatch;
    RunRepresents(e, ops);
    StepSimulates(e, After(e, ops), WrittenAfter(e, ops), op);
    RepresentsParts(e, After(e, ops), WrittenAfter(e, ops));
    RevealIsSpec(e, After(e, ops), WrittenAfter(e, ops).records, tenant, vault, secretId, version);
  }

  // Main result: with a key provisioned, access allowed and the event recorded, creating under a new id
  // and name succeeds, and so does every rotation of an active secret, with the next version.
  lemma WritesSucceed(e: Env, ops: seq<Op>, op: Op)
    requires Lawful(e.aead) && (op.Create? || op.Rotate?) && op.access.Allowed?
    ensures var w, r := WrittenAfter(e, ops), Apply(e, After(e, ops), op).1;
            && (op.Create? && op.actor.tenantId in w.provisioned && op.secretId !in w.records && !NameUsed(w.records, op.vault, op.name)
                && RecordIn(e, w.audit, SecretEvent(op.actor, "secret.created", op.secretId, [VaultEntry(op.vault)]), op.stamp).Some? ==>
                  r == Created)
            && (op.Rotate? && ActiveRecord(w.records, op.secretId, op.vault, op.actor.tenantId) ==>
                  var n := |w.records[op.secretId].values| + 1;
                  RecordIn(e, w.audit, RotationEvent(op.actor, op.vault, op.secretId, n, 1), op.stamp).Some? ==> r == Rotated(n))
  {
    hide Lawful, Apply, After, WrittenAfter, RecordIn, NameUsed, Represents;
    RunRepresents(e, ops);
    StepSimulates(e, After(e, ops), WrittenAfter(e, ops), op);
  }

  ghost predicate ValuesKept(a: map<Uuid, Record>, b: map<Uuid, Record>) {
    forall id :: id in a ==>
      && id in b && b[id].tenant == a[id].tenant && b[id].vault == a[id].vault && a[id].values <= b[id].values
      && (a[id].deleted ==> b[id].deleted)
  }

  lemma {:induction false} RunKeepsValues(e: Env, ops: seq<Op>, i: nat)
    requires i <= |ops|
    ensures ValuesKept(WrittenAfter(e, ops[..i]).records, WrittenAfter(e, ops).records)
    decreases |ops|
  {
    hide SpecStep;
    if i == |ops| {
      assert ops[..i] == ops;
    } else {
      var before := ops[..|ops| - 1];
      RunKeepsValues(e, before, i);
      assert before[..i] == ops[..i];
      StepKeepsValues(e, WrittenAfter(e, before), ops[|ops| - 1]);
    }
  }

  lemma StepKeepsValues(e: Env, w: Written, op: Op)
    ensures ValuesKept(w.records, SpecStep(e, w, op).0.records)
  {
    hide RecordIn, Denial, NameUsed, SpecReveal;
  }

  // Main result: once revealed, a version is revealed the same for as long as the secret is active.
  lemma EarlierRevealsKept(e: Env, ops: seq<Op>, i: nat, tenant: Uuid, vault: Uuid, secretId: Uuid, k: int)
    requires Lawful(e.aead) && i <= |ops|
    requires RevealValue(e, After(e, ops[..i]), tenant, vault, secretId, Some(k)).Revealed?
    ensures var w := WrittenAfter(e, ops).records;
            RevealValue(e, After(e, ops), tenant, vault, secretId, Some(k)) ==
            if secretId in w && w[secretId].deleted then NotFound
            else RevealValue(e, After(e, ops[..i]), tenant, vault, secretId, Some(k))
  {
    hide RevealValue, After, WrittenAfter, Represents, Lawful, RowsMatch;
    RunRepresents(e, ops[..i]);
    RepresentsParts(e, After(e, ops[..i]), WrittenAfter(e, ops[..i]));
    RevealIsSpec(e, After(e, ops[..i]), WrittenAfter(e, ops[..i]).records, tenant, vault, secretId, Some(k));
    RunRepresents(e, ops);
    RepresentsParts(e, After(e, ops), WrittenAfter(e, ops));
    RevealIsSpec(e, After(e, ops), WrittenAfter(e, ops).records, tenant, vault, secretId, Some(k));
    RunKeepsValues(e, ops, i);
  }

  // --- Rows cannot stand in for one another ---

  // The encrypted columns of another stored row, read in place of this one's.
  function SwappedIn(t: Tables, at: (Uuid, int), from: (Uuid, int)): Tables
    requires at in t.versions && from in t.versions
  {
    var r := t.versions[from];
    t.(versions := t.versions[at := t.versions[at].(ciphertext := r.ciphertext, nonce := r.nonce, dekVersion := r.dekVersion)])
  }

  // Main result: with the encrypted columns of any other row, of whatever secret, version or tenant,
  // reveal fails; it never returns another row's plaintext.
  lemma SwappedRowFails(e: Env, t: Tables, w: map<Uuid, Record>, secretId: Uuid, k: int, from: (Uuid, int))
    requires Lawful(e.aead) && RowsMatch(e, t, w)
    requires secretId in t.secrets && !t.secrets[secretId].deleted && (secretId, k) in t.versions
    requires from in t.versions && from != (secretId, k)
    ensures var s := t.secrets[secretId];
            RevealValue(e, SwappedIn(t, (secretId, k), from), s.tenant, s.vault, secretId, Some(k)) == CryptoError
  {
    hide SecretAad, DekWrapAad, Encode, Decode, KeysOk, Unwrap;
    var s, other := t.secrets[secretId], t.secrets[from.0];
    assert SecretHolds(e, t, secretId, s, w[secretId]) && SecretHolds(e, t, from.0, other, w[from.0]);
    assert from == (from.0, from.1);
    assert RowHolds(e, t, s, secretId, k, t.versions[(secretId, k)], w[secretId].values[k - 1]);
    assert RowHolds(e, t, other, from.0, from.1, t.versions[from], w[from.0].values[from.1 - 1]);
    if SecretAad(s.tenant, s.vault, secretId, k) == SecretAad(other.tenant, other.vault, from.0, from.1) {
      SecretAadInjective(s.tenant, s.vault, secretId, k, other.tenant, other.vault, from.0, from.1);
    }
  }

  // Nor can a wrapped key: read in place of another tenant's or version's it does not unwrap.
  lemma SwappedKeyFails(e: Env, t: Tables, at: (Uuid, int), from: (Uuid, int))
    requires Lawful(e.aead) && KeysOk(e, t) && at in t.keys && from in t.keys && at != from
    ensures LoadDekVersion(e, t.(keys := t.keys[at := t.keys[from]]), at.0, at.1) == None
  {
    hide SecretAad, DekWrapAad;
    assert KeyOk(e, t.keys[from], from.0, from.1);
    assert at == (at.0, at.1);
    if DekWrapAad(at.0, at.1) == DekWrapAad(from.0, from.1) {
      DekWrapAadInjective(at.0, at.1, from.0, from.1);
    }
  }

  // A key row under another master key's id does not unwrap, a version row of another tenant is not found,
  // and a key of another length is not used.
  lemma ForeignRowsFail(e: Env, t: Tables, tenant: Uuid, vault: Uuid, secretId: Uuid, version: int)
    ensures (tenant, version) in t.keys && t.keys[(tenant, version)].keyId != KEY_ID ==> LoadDekVersion(e, t, tenant, version) == None
    ensures (secretId, version) in t.versions && t.versions[(secretId, version)].tenant != tenant ==>
              RevealValue(e, t, tenant, vault, secretId, Some(version)) == NotFound
    ensures tenant in t.activeKey && (tenant, t.activeKey[tenant]) in t.keys
            && LoadDekVersion(e, t, tenant, t.activeKey[tenant]).Some? && |LoadDekVersion(e, t, tenant, t.activeKey[tenant]).value| != DEK_SIZE ==>
              forall plaintext, nonce :: Seal(e, t, tenant, vault, secretId, version, plaintext, nonce) == SealFailed(CryptoError)
  {
    hide SecretAad, DekWrapAad, Decode, Encode;
  }
}
