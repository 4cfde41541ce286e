// The canonical bytes of an audit event and the hash input they are framed into.
module AuditHashing {
  import opened Wrappers
  import opened Text
  import opened Sorting
  import opened Json

  // A UTC date and time with a four-digit year: what astimezone(UTC) leaves of `occurred_at`.
  datatype CivilTime = CivilTime(year: nat, month: nat, day: nat, hour: nat, minute: nat, second: nat, micro: nat) {
    predicate InRange() {
      && 1000 <= year <= 9999 && 1 <= month <= 12 && 1 <= day <= 31
      && hour < 24 && minute < 60 && second < 60 && micro < 1_000_000
    }
  }

  type UtcTime = t: CivilTime | t.InRange() witness CivilTime(1970, 1, 1, 0, 0, 0, 0)

  // The ten values an event's hash covers.
  datatype EventFields = EventFields(
    tenantId: Uuid,
    sequence: int,
    actorUserId: Option<Uuid>,
    sessionId: Option<Uuid>,
    action: string,
    targetType: string,
    targetId: Option<Uuid>,
    outcome: string,
    metadata: seq<Entry>,
    occurredAt: UtcTime)

  // Equal in all ten, with metadata compared as a JSON object.
  ghost predicate SameFields(a: EventFields, b: EventFields) {
    && a.(metadata := b.metadata) == b
    && Fields(a.metadata) == Fields(b.metadata)
  }

  // strftime("%Y-%m-%dT%H:%M:%S.%f") + "Z"
  function TimeText(t: UtcTime): (s: string)
    ensures |s| == 27
  {
    Padded(t.year, 4) + "-" + Padded(t.month, 2) + "-" + Padded(t.day, 2) + "T" +
    Padded(t.hour, 2) + ":" + Padded(t.minute, 2) + ":" + Padded(t.second, 2) + "." + Padded(t.micro, 6) + "Z"
  }

  lemma Powers()
    ensures Pow10(2) == 100 && Pow10(4) == 10_000 && Pow10(6) == 1_000_000
  {
    assert Pow10(1) == 10 && Pow10(3) == 1000 && Pow10(5) == 100_000;
  }

  lemma TimeTextInjective(t: UtcTime, u: UtcTime)
    requires TimeText(t) == TimeText(u)
    ensures t == u
  {
    hide Padded, Pow10;
    var a, b := TimeText(t), TimeText(u);
    Powers();
    assert a[0..4] == Padded(t.year, 4) && b[0..4] == Padded(u.year, 4);
    assert a[5..7] == Padded(t.month, 2) && b[5..7] == Padded(u.month, 2);
    assert a[8..10] == Padded(t.day, 2) && b[8..10] == Padded(u.day, 2);
    assert a[11..13] == Padded(t.hour, 2) && b[11..13] == Padded(u.hour, 2);
    assert a[14..16] == Padded(t.minute, 2) && b[14..16] == Padded(u.minute, 2);
    assert a[17..19] == Padded(t.second, 2) && b[17..19] == Padded(u.second, 2);
    assert a[20..26] == Padded(t.micro, 6) && b[20..26] == Padded(u.micro, 6);
    PaddedInjective(t.year, u.year, 4);
    PaddedInjective(t.month, u.month, 2);
    PaddedInjective(t.day, u.day, 2);
    PaddedInjective(t.hour, u.hour, 2);
    PaddedInjective(t.minute, u.minute, 2);
    PaddedInjective(t.second, u.second, 2);
    PaddedInjective(t.micro, u.micro, 6);
  }

  // The layout YYYY-MM-DDTHH:MM:SS.ffffffZ, read back.
  lemma TimeTextReads(t: UtcTime)
    ensures var s := TimeText(t);
            && ValueOf(s[0..4]) == t.year && ValueOf(s[5..7]) == t.month && ValueOf(s[8..10]) == t.day
            && ValueOf(s[11..13]) == t.hour && ValueOf(s[14..16]) == t.minute && ValueOf(s[17..19]) == t.second
            && ValueOf(s[20..26]) == t.micro
            && [s[4], s[7], s[10], s[13], s[16], s[19], s[26]] == "--T::.Z"
  {
    hide Padded, Pow10, ValueOf;
    var s := TimeText(t);
    Powers();
    assert s[0..4] == Padded(t.year, 4) && s[5..7] == Padded(t.month, 2) && s[8..10] == Padded(t.day, 2);
    assert s[11..13] == Padded(t.hour, 2) && s[14..16] == Padded(t.minute, 2) && s[17..19] == Padded(t.second, 2);
    assert s[20..26] == Padded(t.micro, 6);
    PaddedValue(t.year, 4);
    PaddedValue(t.month, 2);
    PaddedValue(t.day, 2);
    PaddedValue(t.hour, 2);
    PaddedValue(t.minute, 2);
    PaddedValue(t.second, 2);
    PaddedValue(t.micro, 6);
  }

  function OptionalId(id: Option<Uuid>): Json {
    match id
    case None => Null
    case Some(u) => Str(UuidText(u))
  }

  // The dictionary in the order the code writes it; printing sorts it.
  function Document(f: EventFields): seq<Entry> {
    [ Entry("tenant_id", Str(UuidText(f.tenantId))),
      Entry("sequence", Int(f.sequence)),
      Entry("actor_user_id", OptionalId(f.actorUserId)),
      Entry("session_id", OptionalId(f.sessionId)),
      Entry("action", Str(f.action)),
      Entry("target_type", Str(f.targetType)),
      Entry("target_id", OptionalId(f.targetId)),
      Entry("outcome", Str(f.outcome)),
      Entry("metadata", Dict(f.metadata)),
      Entry("occurred_at", Str(TimeText(f.occurredAt))) ]
  }

  function CanonicalEventBytes(f: EventFields): Bytes {
    Encode(Dumps(Dict(Document(f))))
  }

  ghost predicate ValidFields(f: EventFields) { Valid(Dict(f.metadata)) }

  lemma DocumentValid(f: EventFields)
    requires ValidFields(f)
    ensures Valid(Dict(Document(f)))
  {
    var d := Document(f);
    assert "tenant_id"[1] == 'e' && "target_id"[1] == 'a';
    assert "sequence"[0] == 's' && "metadata"[0] == 'm';
    assert "target_type"[0] == 't' && "occurred_at"[0] == 'o';
    assert DistinctKeys(d);
    assert forall i :: 0 <= i < |d| ==> Valid(d[i].value);
  }

  lemma OptionalIdInjective(a: Option<Uuid>, b: Option<Uuid>)
    requires Meaning(OptionalId(a)) == Meaning(OptionalId(b))
    ensures a == b
  {
    if a.Some? && b.Some? {
      UuidTextInjective(a.value, b.value);
    }
  }

  // Equal key lists and equal fields: equal values at each position.
  lemma FieldsDetermineValues(a: seq<Entry>, b: seq<Entry>)
    requires DistinctKeys(a) && DistinctKeys(b) && |a| == |b| && Fields(a) == Fields(b)
    requires forall i :: 0 <= i < |a| ==> a[i].key == b[i].key
    ensures forall i :: 0 <= i < |a| ==> Meaning(a[i].value) == Meaning(b[i].value)
  {
    FieldsOf(a);
    FieldsOf(b);
    forall i | 0 <= i < |a| ensures Meaning(a[i].value) == Meaning(b[i].value) {
      assert Fields(a)[a[i].key] == Fields(b)[b[i].key];
    }
  }

  lemma DocumentDeterminesFields(a: EventFields, b: EventFields)
    requires ValidFields(a) && ValidFields(b) && Fields(Document(a)) == Fields(Document(b))
    ensures SameFields(a, b)
  {
    hide Fields, UuidText, TimeText;
    var p, q := Document(a), Document(b);
    DocumentValid(a);
    DocumentValid(b);
    FieldsDetermineValues(p, q);
    assert Meaning(p[0].value) == Meaning(q[0].value) && Meaning(p[1].value) == Meaning(q[1].value);
    assert Meaning(p[2].value) == Meaning(q[2].value) && Meaning(p[3].value) == Meaning(q[3].value);
    assert Meaning(p[4].value) == Meaning(q[4].value) && Meaning(p[5].value) == Meaning(q[5].value);
    assert Meaning(p[6].value) == Meaning(q[6].value) && Meaning(p[7].value) == Meaning(q[7].value);
    assert Meaning(p[8].value) == Meaning(q[8].value) && Meaning(p[9].value) == Meaning(q[9].value);
    UuidTextInjective(a.tenantId, b.tenantId);
    OptionalIdInjective(a.actorUserId, b.actorUserId);
    OptionalIdInjective(a.sessionId, b.sessionId);
    OptionalIdInjective(a.targetId, b.targetId);
    TimeTextInjective(a.occurredAt, b.occurredAt);
  }

  lemma SameDocument(a: EventFields, b: EventFields)
    requires ValidFields(a) && ValidFields(b)
    ensures Meaning(Dict(Document(a))) == Meaning(Dict(Document(b))) <==> SameFields(a, b)
  {
    hide UuidText, TimeText;
    if Fields(Document(a)) == Fields(Document(b)) {
      DocumentDeterminesFields(a, b);
    }
    if SameFields(a, b) {
      FieldsAgree(Document(a), Document(b));
    }
  }

  // Main result: equal canonical bytes exactly when all ten fields are equal.
  lemma CanonicalBytesDecideFields(a: EventFields, b: EventFields)
    requires ValidFields(a) && ValidFields(b)
    ensures CanonicalEventBytes(a) == CanonicalEventBytes(b) <==> SameFields(a, b)
  {
    hide Dumps, Document, Encode;
    var p, q := Dict(Document(a)), Dict(Document(b));
    DocumentValid(a);
    DocumentValid(b);
    SameDocument(a, b);
    DumpsDecidesMeaning(p, q);
    if CanonicalEventBytes(a) == CanonicalEventBytes(b) {
      EncodeInjective(Dumps(p), Dumps(q));
    }
  }

  function IdValue(id: Option<Uuid>): Value { if id.None? then VNull else VStr(UuidText(id.value)) }

  ghost predicate HasValue(fields: map<string, Value>, key: string, value: Value) { key in fields && fields[key] == value }

  // Main result: the canonical bytes decode and parse to the JSON object with the event's ten values under
  // their names, and nothing else.
  lemma CanonicalReadsBack(f: EventFields)
    requires ValidFields(f)
    ensures var text := Decode(CanonicalEventBytes(f));
            && text.Some?
            && var parsed := Parse(text.value);
               && parsed.Done? && parsed.rest == "" && Meaning(parsed.value).VObject?
               && var o := Meaning(parsed.value).fields;
                  && |o| == 10
                  && HasValue(o, "tenant_id", VStr(UuidText(f.tenantId))) && HasValue(o, "sequence", VInt(f.sequence))
                  && HasValue(o, "actor_user_id", IdValue(f.actorUserId)) && HasValue(o, "session_id", IdValue(f.sessionId))
                  && HasValue(o, "action", VStr(f.action)) && HasValue(o, "target_type", VStr(f.targetType))
                  && HasValue(o, "target_id", IdValue(f.targetId)) && HasValue(o, "outcome", VStr(f.outcome))
                  && HasValue(o, "metadata", VObject(Fields(f.metadata))) && HasValue(o, "occurred_at", VStr(TimeText(f.occurredAt)))
  {
    hide Dumps, Document, Encode, Decode, Parse, Fields, UuidText, TimeText;
    var d := Dict(Document(f));
    DocumentValid(f);
    DecodeEncode(Dumps(d));
    DumpsRoundTrip(d);
    DocumentFields(f);
  }

  lemma DocumentFields(f: EventFields)
    requires ValidFields(f)
    ensures var o := Fields(Document(f));
            && |o| == 10
            && HasValue(o, "tenant_id", VStr(UuidText(f.tenantId))) && HasValue(o, "sequence", VInt(f.sequence))
            && HasValue(o, "actor_user_id", IdValue(f.actorUserId)) && HasValue(o, "session_id", IdValue(f.sessionId))
            && HasValue(o, "action", VStr(f.action)) && HasValue(o, "target_type", VStr(f.targetType))
            && HasValue(o, "target_id", IdValue(f.targetId)) && HasValue(o, "outcome", VStr(f.outcome))
            && HasValue(o, "metadata", VObject(Fields(f.metadata))) && HasValue(o, "occurred_at", VStr(TimeText(f.occurredAt)))
  {
    hide Fields, UuidText, TimeText;
    var d := Document(f);
    DocumentValid(f);
    FieldsOf(d);
    FieldsCount(d);
    assert d[0].key == "tenant_id" && d[1].key == "sequence" && d[2].key == "actor_user_id" && d[3].key == "session_id";
    assert d[4].key == "action" && d[5].key == "target_type" && d[6].key == "target_id" && d[7].key == "outcome";
    assert d[8].key == "metadata" && d[9].key == "occurred_at";
  }

  lemma {:induction false} FieldsCount(es: seq<Entry>)
    requires DistinctKeys(es)
    ensures |Fields(es)| == |es|
  {
    if es != [] {
      FieldsCount(es[1..]);
      assert forall i :: 0 <= i < |es[1..]| ==> es[1..][i].key != es[0].key;
      if es[0].key in Fields(es[1..]) { var i := EntryOfField(es[1..], es[0].key); }
    }
  }

  // --- Framing ---

  const GENESIS_TEXT := "vaultlog:audit:genesis:v1"
  const GENESIS_DOMAIN: Bytes := Encode(GENESIS_TEXT)

  function HashInput(previous: Option<Bytes>, canonical: Bytes): Bytes {
    (if previous.Some? then previous.value else GENESIS_DOMAIN) + canonical
  }

  type Hash = Bytes -> Bytes

  function EntryHash(h: Hash, previous: Option<Bytes>, canonical: Bytes): Bytes {
    h(HashInput(previous, canonical))
  }

  lemma ActionComesFirst(k: string)
    requires k in {"tenant_id", "sequence", "actor_user_id", "session_id", "target_type", "target_id", "outcome", "metadata", "occurred_at"}
    ensures !KeyBefore(k, "action")
  {
    if k == "actor_user_id" {
      assert k[1..] == "ctor_user_id" && "action"[1..] == "ction";
      assert "ctor_user_id"[1..] == "tor_user_id" && "ction"[1..] == "tion";
      assert "tor_user_id"[1..] == "or_user_id" && "tion"[1..] == "ion";
      assert !KeyBefore("or_user_id", "ion");
      assert !KeyBefore("tor_user_id", "tion");
      assert !KeyBefore("ctor_user_id", "ction");
    }
  }

  lemma {:induction false} EscapePlain(s: string)
    requires forall i :: 0 <= i < |s| ==> EscapeChar(s[i]) == [s[i]]
    ensures Escape(s) == s
  {
    if s != "" {
      EscapePlain(s[1..]);
    }
  }

  // The first key after sorting is "action".
  lemma FirstKey(f: EventFields)
    requires ValidFields(f)
    ensures var s := Sort(CanonEntries(Document(f)), EntryBefore); s != [] && s[0].key == "action"
  {
    hide CanonEntries, KeyBefore, Canon, Sort;
    var d := Document(f);
    DocumentValid(f);
    forall i | 0 <= i < |d| ensures !KeyBefore(d[i].key, "action") {
      if i == 4 { KeyOrder("action", "action"); } else { ActionComesFirst(d[i].key); }
    }
    LeastEntryFirst(CanonEntries(d), 4);
  }

  const OPENING := "{\"action"

  lemma QuotedAction()
    ensures Quote("action") == "\"action\""
  {
    EscapePlain("action");
  }

  lemma PrintStartsWithKey(es: seq<Entry>)
    requires es != [] && es[0].key == "action"
    ensures OPENING <= Print(Dict(es))
  {
    hide Quote;
    QuotedAction();
    var q := Quote("action");
    assert q <= PrintEntry(es[0]);
    assert PrintEntry(es[0]) <= PrintEntries(es);
    assert "{" + q <= "{" + PrintEntries(es) <= Print(Dict(es));
    assert OPENING <= "{" + q;
  }

  // Every canonical form starts with the characters {"action.
  lemma CanonicalStarts(f: EventFields)
    requires ValidFields(f)
    ensures var b := CanonicalEventBytes(f); |b| >= 8 && b[0] == '{' as int && b[7] == 'n' as int
  {
    hide Print, Document, Encode, Canon, CanonEntries, Sort;
    FirstKey(f);
    var es := Sort(CanonEntries(Document(f)), EntryBefore);
    assert Canon(Dict(Document(f))) == Dict(es) by { CanonOfDict(Document(f)); }
    PrintStartsWithKey(es);
    var text := Dumps(Dict(Document(f)));
    assert forall i :: 0 <= i < 8 ==> text[i] == OPENING[i] && (OPENING[i] as int) < 0x80;
    EncodeAsciiPrefix(text, 8);
    assert OPENING[0] == '{' && OPENING[7] == 'n';
  }

  lemma CanonOfDict(es: seq<Entry>)
    ensures Canon(Dict(es)) == Dict(Sort(CanonEntries(es), EntryBefore))
  {
  }

  lemma GenesisLength()
    ensures |GENESIS_DOMAIN| == 25
  {
    hide Encode;
    AsciiLength(GENESIS_TEXT);
  }

  lemma {:induction false} AsciiLength(s: string)
    requires forall i :: 0 <= i < |s| ==> (s[i] as int) < 0x80
    ensures |Encode(s)| == |s|
  {
    if s != "" {
      AsciiLength(s[1..]);
    }
  }

  ghost predicate DigestSized(previous: Option<Bytes>) { previous.Some? ==> |previous.value| == 32 }

  // With the genesis tag, position 32 of the input is the eighth character of the canonical form;
  // with a digest it is the first.
  lemma GenesisClash(c: Bytes, digest: Bytes, d: Bytes)
    requires |digest| == 32 && |c| >= 8 && |d| >= 1 && c[7] != d[0]
    ensures GENESIS_DOMAIN + c != digest + d
  {
    GenesisLength();
    assert (GENESIS_DOMAIN + c)[32] == c[7] && (digest + d)[32] == d[0];
  }

  // Main result: the hash input can be cut in one way only, even between the 25-byte genesis tag
  // and a 32-byte previous hash.
  lemma FramingUnambiguous(p: Option<Bytes>, a: EventFields, q: Option<Bytes>, b: EventFields)
    requires ValidFields(a) && ValidFields(b) && DigestSized(p) && DigestSized(q)
    requires HashInput(p, CanonicalEventBytes(a)) == HashInput(q, CanonicalEventBytes(b))
    ensures p == q && SameFields(a, b)
  {
    hide CanonicalEventBytes, Encode;
    var c, d := CanonicalEventBytes(a), CanonicalEventBytes(b);
    CanonicalStarts(a);
    CanonicalStarts(b);
    if p.None? && q.Some? {
      GenesisClash(c, q.value, d);
    } else if p.Some? && q.None? {
      GenesisClash(d, p.value, c);
    } else {
      var n := if p.Some? then 32 else |GENESIS_DOMAIN|;
      var x, y := HashInput(p, c), HashInput(q, d);
      assert x[..n] == (if p.Some? then p.value else GENESIS_DOMAIN) && x[n..] == c;
      assert y[..n] == (if q.Some? then q.value else GENESIS_DOMAIN) && y[n..] == d;
      CanonicalBytesDecideFields(a, b);
    }
  }
}
