// json.dumps(..., sort_keys=True, separators=(",", ":"), ensure_ascii=False) on the values audit
// metadata is built from, a parser that undoes it, and the law the hash chain needs: two values
// print the same text exactly when they mean the same JSON value.
module Json {
  import opened Wrappers
  import opened Text
  import opened Sorting

  // A Python value; a dictionary is its items in insertion order.
  datatype Json =
    | Null
    | Bool(b: bool)
    | Int(n: int)
    | Str(s: string)
    | List(items: seq<Json>)
    | Dict(entries: seq<Entry>)

  datatype Entry = Entry(key: string, value: Json)

  ghost predicate DistinctKeys(es: seq<Entry>) {
    forall i, j :: 0 <= i < j < |es| ==> es[i].key != es[j].key
  }

  // What Python guarantees of a value: no dictionary holds a key twice.
  ghost predicate Valid(v: Json) {
    match v
    case List(items) => forall i :: 0 <= i < |items| ==> Valid(items[i])
    case Dict(es) => DistinctKeys(es) && forall i :: 0 <= i < |es| ==> Valid(es[i].value)
    case _ => true
  }

  // --- Meaning: JSON values, where an object is a map and key order does not exist ---

  datatype Value =
    | VNull
    | VBool(b: bool)
    | VInt(n: int)
    | VStr(s: string)
    | VList(items: seq<Value>)
    | VObject(fields: map<string, Value>)

  function Meaning(v: Json): Value {
    match v
    case Null => VNull
    case Bool(b) => VBool(b)
    case Int(n) => VInt(n)
    case Str(s) => VStr(s)
    case List(items) => VList(seq(|items|, i requires 0 <= i < |items| => Meaning(items[i])))
    case Dict(es) => VObject(Fields(es))
  }

  function Fields(es: seq<Entry>): map<string, Value> {
    if es == [] then map[] else Fields(es[1..])[es[0].key := Meaning(es[0].value)]
  }

  // --- Sorting of keys: Python compares strings by code point ---

  predicate KeyBefore(a: string, b: string) {
    b != "" && (a == "" || a[0] < b[0] || (a[0] == b[0] && KeyBefore(a[1..], b[1..])))
  }

  predicate EntryBefore(a: Entry, b: Entry) { KeyBefore(a.key, b.key) }

  lemma {:induction false} KeyOrder(a: string, b: string)
    ensures a == b || KeyBefore(a, b) || KeyBefore(b, a)
    ensures KeyBefore(a, b) ==> !KeyBefore(b, a) && a != b
  {
    if a != "" && b != "" {
      KeyOrder(a[1..], b[1..]);
      assert a == [a[0]] + a[1..] && b == [b[0]] + b[1..];
    }
  }

  lemma {:induction false} KeyTransitive(a: string, b: string, c: string)
    requires KeyBefore(a, b) && KeyBefore(b, c)
    ensures KeyBefore(a, c)
  {
    if a != "" && a[0] == b[0] == c[0] {
      KeyTransitive(a[1..], b[1..], c[1..]);
    }
  }

  lemma EntriesOrdered(es: seq<Entry>)
    requires DistinctKeys(es)
    ensures Ordered(es, EntryBefore)
  {
    forall x, y | EntryBefore(x, y) ensures !EntryBefore(y, x) { KeyOrder(x.key, y.key); }
    forall x, y, z | EntryBefore(x, y) && EntryBefore(y, z) ensures EntryBefore(x, z) {
      KeyTransitive(x.key, y.key, z.key);
    }
    forall i, j | 0 <= i < j < |es| ensures EntryBefore(es[i], es[j]) || EntryBefore(es[j], es[i]) {
      KeyOrder(es[i].key, es[j].key);
    }
  }

  // The same value with the keys of every dictionary in ascending order.
  function Canon(v: Json): Json {
    match v
    case List(items) => List(seq(|items|, i requires 0 <= i < |items| => Canon(items[i])))
    case Dict(es) => Dict(Sort(CanonEntries(es), EntryBefore))
    case _ => v
  }

  function CanonEntries(es: seq<Entry>): (r: seq<Entry>)
    ensures |r| == |es| && forall i :: 0 <= i < |es| ==> r[i].key == es[i].key && r[i].value == Canon(es[i].value)
  {
    if es == [] then [] else [Entry(es[0].key, Canon(es[0].value))] + CanonEntries(es[1..])
  }

  // --- Printing ---

  function LowHex(n: nat): string
    requires n < 32
  {
    [HexDigit(n / 16), HexDigit(n % 16)]
  }

  // The two-character escapes of the json module's ESCAPE_DCT, and back.
  function ShortEscape(c: char): Option<char> {
    if c == '"' || c == '\\' then Some(c)
    else if c == '\n' then Some('n')
    else if c == '\r' then Some('r')
    else if c == '\t' then Some('t')
    else if c as int == 8 then Some('b')
    else if c as int == 12 then Some('f')
    else None
  }

  function ShortUnescape(x: char): Option<char> {
    if x == '"' || x == '\\' then Some(x)
    else if x == 'n' then Some('\n')
    else if x == 'r' then Some('\r')
    else if x == 't' then Some('\t')
    else if x == 'b' then Some(8 as char)
    else if x == 'f' then Some(12 as char)
    else None
  }

  // The other control characters become \u00XX; everything else stands for itself.
  function EscapeChar(c: char): string {
    if ShortEscape(c).Some? then ['\\', ShortEscape(c).value]
    else if (c as int) < 32 then "\\u00" + LowHex(c as int)
    else [c]
  }

  function Escape(s: string): string {
    if s == "" then "" else EscapeChar(s[0]) + Escape(s[1..])
  }

  function Quote(s: string): string { "\"" + Escape(s) + "\"" }

  function Print(v: Json): string {
    match v
    case Null => "null"
    case Bool(b) => if b then "true" else "false"
    case Int(n) => Decimal(n)
    case Str(s) => Quote(s)
    case List(items) => if items == [] then "[]" else "[" + PrintItems(items) + "]"
    case Dict(es) => if es == [] then "{}" else "{" + PrintEntries(es) + "}"
  }

  function PrintItems(items: seq<Json>): string
    requires items != []
  {
    if |items| == 1 then Print(items[0]) else Print(items[0]) + "," + PrintItems(items[1..])
  }

  function PrintEntry(e: Entry): string { Quote(e.key) + ":" + Print(e.value) }

  function PrintEntries(es: seq<Entry>): string
    requires es != []
  {
    if |es| == 1 then PrintEntry(es[0]) else PrintEntry(es[0]) + "," + PrintEntries(es[1..])
  }

  function Dumps(v: Json): string { Print(Canon(v)) }

  // --- Parsing: the inverse of Print, one value followed by any remaining text ---

  datatype Parsed<T> = Fail | Done(value: T, rest: string)

  function HexValue(c: char): Option<nat> {
    if '0' <= c <= '9' then Some(c as int - '0' as int)
    else if 'a' <= c <= 'f' then Some(c as int - 'a' as int + 10)
    else None
  }

  // The text after an opening quote: the characters up to the closing one.
  function ParseChars(s: string): (r: Parsed<string>)
    ensures r.Done? ==> |r.rest| < |s|
  {
    if s == "" then Fail
    else if s[0] == '"' then Done("", s[1..])
    else if s[0] != '\\' then Prepend(s[0], ParseChars(s[1..]))
    else if |s| < 2 then Fail
    else if ShortUnescape(s[1]).Some? then Prepend(ShortUnescape(s[1]).value, ParseChars(s[2..]))
    else if s[1] == 'u' && |s| >= 6 && s[2] == '0' && s[3] == '0' then
      match (HexValue(s[4]), HexValue(s[5]))
      case (Some(h), Some(l)) => Prepend((16 * h + l) as char, ParseChars(s[6..]))
      case _ => Fail
    else Fail
  }

  function Prepend(c: char, p: Parsed<string>): (r: Parsed<string>)
    ensures r.Done? <==> p.Done?
    ensures r.Done? ==> r.rest == p.rest && r.value == [c] + p.value
  {
    match p
    case Fail => Fail
    case Done(t, rest) => Done([c] + t, rest)
  }

  function DigitRun(s: string): (n: nat)
    ensures n <= |s| && AllDigits(s[..n]) && (n < |s| ==> !IsDigit(s[n]))
  {
    if s == "" || !IsDigit(s[0]) then 0 else 1 + DigitRun(s[1..])
  }

  function ParseInt(s: string): (r: Parsed<Json>)
    ensures r.Done? ==> |r.rest| < |s|
  {
    var neg := s != "" && s[0] == '-';
    var t := if neg then s[1..] else s;
    var n := DigitRun(t);
    if n == 0 then Fail
    else
      var m: int := ValueOf(t[..n]);
      Done(Int(if neg then -m else m), t[n..])
  }

  function Literal(word: string, v: Json, s: string): (r: Parsed<Json>)
    requires word != ""
    ensures r.Done? ==> |r.rest| < |s|
  {
    if word <= s then Done(v, s[|word|..]) else Fail
  }

  function Parse(s: string): (r: Parsed<Json>)
    ensures r.Done? ==> |r.rest| < |s|
    decreases |s|, 0
  {
    if s == "" then Fail
    else if s[0] == 'n' then Literal("null", Null, s)
    else if s[0] == 't' then Literal("true", Bool(true), s)
    else if s[0] == 'f' then Literal("false", Bool(false), s)
    else if s[0] == '"' then
      (match ParseChars(s[1..])
       case Fail => Fail
       case Done(t, rest) => Done(Str(t), rest))
    else if s[0] == '[' then
      if |s| > 1 && s[1] == ']' then Done(List([]), s[2..])
      else
        (match ParseItems(s[1..])
         case Fail => Fail
         case Done(items, rest) => Done(List(items), rest))
    else if s[0] == '{' then
      if |s| > 1 && s[1] == '}' then Done(Dict([]), s[2..])
      else
        (match ParseEntries(s[1..])
         case Fail => Fail
         case Done(es, rest) => Done(Dict(es), rest))
    else ParseInt(s)
  }

  // Comma-separated values and the closing bracket.
  function ParseItems(s: string): (r: Parsed<seq<Json>>)
    ensures r.Done? ==> |r.rest| < |s|
    decreases |s|, 1
  {
    match Parse(s)
    case Fail => Fail
    case Done(v, rest) =>
      if rest == "" then Fail
      else if rest[0] == ']' then Done([v], rest[1..])
      else if rest[0] != ',' then Fail
      else
        match ParseItems(rest[1..])
        case Fail => Fail
        case Done(vs, rest') => Done([v] + vs, rest')
  }

  function ParseEntry(s: string): (r: Parsed<Entry>)
    ensures r.Done? ==> |r.rest| < |s|
    decreases |s|, 1
  {
    if s == "" || s[0] != '"' then Fail
    else
      match ParseChars(s[1..])
      case Fail => Fail
      case Done(k, rest) =>
        if rest == "" || rest[0] != ':' then Fail
        else
          match Parse(rest[1..])
          case Fail => Fail
          case Done(v, rest') => Done(Entry(k, v), rest')
  }

  function ParseEntries(s: string): (r: Parsed<seq<Entry>>)
    ensures r.Done? ==> |r.rest| < |s|
    decreases |s|, 2
  {
    match ParseEntry(s)
    case Fail => Fail
    case Done(e, rest) =>
      if rest == "" then Fail
      else if rest[0] == '}' then Done([e], rest[1..])
      else if rest[0] != ',' then Fail
      else
        match ParseEntries(rest[1..])
        case Fail => Fail
        case Done(es, rest') => Done([e] + es, rest')
  }

  // --- The parser undoes the printer ---

  lemma ParseControlChar(c: char, rest: string)
    requires (c as int) < 32
    ensures ParseChars("\\u00" + LowHex(c as int) + rest) == Prepend(c, ParseChars(rest))
  {
    var s := "\\u00" + LowHex(c as int) + rest;
    assert s[0] == '\\' && s[1] == 'u' && s[2] == '0' && s[3] == '0' && s[6..] == rest;
    assert s[4] == HexDigit(c as int / 16) && s[5] == HexDigit(c as int % 16);
  }

  lemma ShortEscapeInverse(c: char)
    requires ShortEscape(c).Some?
    ensures ShortUnescape(ShortEscape(c).value) == Some(c)
  {
  }

  lemma ParseEscapedChar(c: char, rest: string)
    ensures ParseChars(EscapeChar(c) + rest) == Prepend(c, ParseChars(rest))
  {
    var s := EscapeChar(c) + rest;
    if ShortEscape(c).Some? {
      ShortEscapeInverse(c);
      hide ShortEscape, ShortUnescape;
      assert s[0] == '\\' && s[1] == ShortEscape(c).value && s[2..] == rest;
    } else if (c as int) < 32 {
      ParseControlChar(c, rest);
    } else {
      assert s[0] == c && s[1..] == rest;
    }
  }

  lemma {:induction false} ParseEscaped(t: string, rest: string)
    ensures ParseChars(Escape(t) + "\"" + rest) == Done(t, rest)
  {
    if t == "" {
      assert Escape(t) + "\"" + rest == "\"" + rest;
    } else {
      ParseEscaped(t[1..], rest);
      var tail := Escape(t[1..]) + "\"" + rest;
      assert Escape(t) + "\"" + rest == EscapeChar(t[0]) + tail;
      ParseEscapedChar(t[0], tail);
      assert t == [t[0]] + t[1..];
    }
  }

  // What may follow a value inside a document, or nothing at its end.
  predicate Delimited(rest: string) {
    rest == "" || rest[0] == ',' || rest[0] == ']' || rest[0] == '}'
  }

  lemma {:induction false} DigitRunOf(ds: string, rest: string)
    requires AllDigits(ds) && (rest == "" || !IsDigit(rest[0]))
    ensures DigitRun(ds + rest) == |ds|
  {
    if ds == "" {
      assert ds + rest == rest;
    } else {
      DigitRunOf(ds[1..], rest);
      assert (ds + rest)[1..] == ds[1..] + rest;
    }
  }

  lemma ParseIntOf(neg: bool, ds: string, rest: string)
    requires ds != "" && AllDigits(ds) && (rest == "" || !IsDigit(rest[0]))
    ensures ParseInt((if neg then "-" else "") + ds + rest) == Done(Int(if neg then -(ValueOf(ds) as int) else ValueOf(ds)), rest)
  {
    hide ValueOf, DigitRun;
    var t := ds + rest;
    var s := (if neg then "-" else "") + ds + rest;
    DigitRunOf(ds, rest);
    assert t[..|ds|] == ds && t[|ds|..] == rest && t[0] == ds[0];
    if neg { assert s[0] == '-' && s[1..] == t; } else { assert s == t; }
  }

  lemma ParsePrintedInt(n: int, rest: string)
    requires Delimited(rest)
    ensures Parse(Decimal(n) + rest) == Done(Int(n), rest)
  {
    hide ParseItems, ParseEntries, ParseChars, ParseInt, Natural, ValueOf, DigitRun, Literal;
    var ds := Natural(if n < 0 then -n else n);
    var s := Decimal(n) + rest;
    ParseIntOf(n < 0, ds, rest);
    assert s == (if n < 0 then "-" else "") + ds + rest;
    assert s[0] == '-' || IsDigit(s[0]);
  }

  // One step of each parser, from what the sub-parsers return.

  lemma StepWord(word: string, v: Json, rest: string)
    requires (word == "null" && v == Null) || (word == "true" && v == Bool(true)) || (word == "false" && v == Bool(false))
    ensures Parse(word + rest) == Done(v, rest)
  {
    var s := word + rest;
    assert s[0] == word[0] && word <= s && s[|word|..] == rest;
  }

  lemma StepString(t: string, rest: string)
    ensures Parse(Quote(t) + rest) == Done(Str(t), rest)
  {
    var s := Quote(t) + rest;
    assert s[0] == '"' && s[1..] == Escape(t) + "\"" + rest;
    ParseEscaped(t, rest);
  }

  lemma StepList(body: string, items: seq<Json>, rest: string)
    requires body != "" && body[0] != ']' && ParseItems(body) == Done(items, rest)
    ensures Parse("[" + body) == Done(List(items), rest)
  {
    var s := "[" + body;
    assert s[0] == '[' && s[1] == body[0] && s[1..] == body;
  }

  lemma StepDict(body: string, es: seq<Entry>, rest: string)
    requires body != "" && body[0] != '}' && ParseEntries(body) == Done(es, rest)
    ensures Parse("{" + body) == Done(Dict(es), rest)
  {
    var s := "{" + body;
    assert s[0] == '{' && s[1] == body[0] && s[1..] == body;
  }

  lemma StepEmpty(rest: string)
    ensures Parse("[]" + rest) == Done(List([]), rest) && Parse("{}" + rest) == Done(Dict([]), rest)
  {
    var s, t := "[]" + rest, "{}" + rest;
    assert s[0] == '[' && s[1] == ']' && s[2..] == rest;
    assert t[0] == '{' && t[1] == '}' && t[2..] == rest;
  }

  lemma StepLastItem(s: string, v: Json, rest: string)
    requires Parse(s) == Done(v, "]" + rest)
    ensures ParseItems(s) == Done([v], rest)
  {
    assert ("]" + rest)[1..] == rest;
  }

  lemma StepItem(s: string, v: Json, tail: string, vs: seq<Json>, rest: string)
    requires Parse(s) == Done(v, "," + tail) && ParseItems(tail) == Done(vs, rest)
    ensures ParseItems(s) == Done([v] + vs, rest)
  {
    assert ("," + tail)[1..] == tail;
  }

  lemma StepEntryPair(k: string, body: string, v: Json, rest: string)
    requires Parse(body) == Done(v, rest)
    ensures ParseEntry(Quote(k) + ":" + body) == Done(Entry(k, v), rest)
  {
    hide Parse, ParseChars, Escape;
    var s, tail := Quote(k) + ":" + body, ":" + body;
    ParseEscaped(k, tail);
    assert s[0] == '"' && s[1..] == Escape(k) + "\"" + tail;
    assert tail[0] == ':' && tail[1..] == body;
  }

  lemma StepLastEntry(s: string, e: Entry, rest: string)
    requires ParseEntry(s) == Done(e, "}" + rest)
    ensures ParseEntries(s) == Done([e], rest)
  {
    assert ("}" + rest)[1..] == rest;
  }

  lemma StepEntry(s: string, e: Entry, tail: string, es: seq<Entry>, rest: string)
    requires ParseEntry(s) == Done(e, "," + tail) && ParseEntries(tail) == Done(es, rest)
    ensures ParseEntries(s) == Done([e] + es, rest)
  {
    assert ("," + tail)[1..] == tail;
  }

  lemma PrintStarts(v: Json)
    ensures Print(v) != "" && Print(v)[0] != ']'
  {
    if v.Int? {
      assert v.n >= 0 ==> IsDigit(Natural(v.n)[0]);
    }
  }

  lemma PrintItemsStarts(items: seq<Json>)
    requires items != []
    ensures PrintItems(items) != "" && PrintItems(items)[0] != ']'
  {
    PrintStarts(items[0]);
  }

  lemma PrintEntriesStarts(es: seq<Entry>)
    requires es != []
    ensures PrintEntries(es) != "" && PrintEntries(es)[0] == '"'
  {
    assert PrintEntry(es[0])[0] == '"';
  }

  lemma {:induction false} ParsePrint(v: Json, rest: string)
    requires Delimited(rest)
    ensures Parse(Print(v) + rest) == Done(v, rest)
    decreases v, 0
  {
    hide Parse, ParseItems, ParseEntry, ParseEntries, ParseChars, ParseInt, Escape, Decimal, PrintEntry, PrintItems, PrintEntries;
    match v
    case Null => StepWord("null", v, rest);
    case Bool(b) => StepWord(if b then "true" else "false", v, rest);
    case Int(n) => ParsePrintedInt(n, rest);
    case Str(t) => StepString(t, rest);
    case List(items) =>
      if items == [] {
        StepEmpty(rest);
      } else {
        var body := PrintItems(items) + "]" + rest;
        ParsePrintItems(items, rest);
        PrintItemsStarts(items);
        StepList(body, items, rest);
        assert Print(v) + rest == "[" + body;
      }
    case Dict(es) =>
      if es == [] {
        StepEmpty(rest);
      } else {
        var body := PrintEntries(es) + "}" + rest;
        ParsePrintEntries(es, rest);
        PrintEntriesStarts(es);
        StepDict(body, es, rest);
        assert Print(v) + rest == "{" + body;
      }
  }

  lemma {:induction false} ParsePrintItems(items: seq<Json>, rest: string)
    requires items != []
    ensures ParseItems(PrintItems(items) + "]" + rest) == Done(items, rest)
    decreases items, 1
  {
    hide Parse, ParseItems, ParseEntry, ParseEntries, ParseChars, ParseInt, Print, Quote, Escape;
    var s := PrintItems(items) + "]" + rest;
    if |items| == 1 {
      ParsePrint(items[0], "]" + rest);
      assert s == Print(items[0]) + ("]" + rest);
      StepLastItem(s, items[0], rest);
      assert items == [items[0]];
    } else {
      var tail := PrintItems(items[1..]) + "]" + rest;
      ParsePrintItems(items[1..], rest);
      ParsePrint(items[0], "," + tail);
      assert s == Print(items[0]) + ("," + tail);
      StepItem(s, items[0], tail, items[1..], rest);
      assert items == [items[0]] + items[1..];
    }
  }

  lemma {:induction false} ParsePrintEntry(e: Entry, rest: string)
    requires Delimited(rest)
    ensures ParseEntry(PrintEntry(e) + rest) == Done(e, rest)
    decreases e, 1
  {
    hide Parse, ParseItems, ParseEntry, ParseEntries, ParseChars, ParseInt, Print, Quote, Escape;
    var body := Print(e.value) + rest;
    ParsePrint(e.value, rest);
    StepEntryPair(e.key, body, e.value, rest);
    assert PrintEntry(e) + rest == Quote(e.key) + ":" + body;
  }

  lemma {:induction false} ParsePrintEntries(es: seq<Entry>, rest: string)
    requires es != []
    ensures ParseEntries(PrintEntries(es) + "}" + rest) == Done(es, rest)
    decreases es, 2
  {
    hide Parse, ParseItems, ParseEntry, ParseEntries, ParseChars, ParseInt, Quote, Print, PrintEntry, Escape, Natural;
    var s := PrintEntries(es) + "}" + rest;
    if |es| == 1 {
      ParsePrintEntry(es[0], "}" + rest);
      assert s == PrintEntry(es[0]) + ("}" + rest);
      StepLastEntry(s, es[0], rest);
      assert es == [es[0]];
    } else {
      var tail := PrintEntries(es[1..]) + "}" + rest;
      ParsePrintEntries(es[1..], rest);
      ParsePrintEntry(es[0], "," + tail);
      assert s == PrintEntry(es[0]) + ("," + tail);
      StepEntry(s, es[0], tail, es[1..], rest);
      assert es == [es[0]] + es[1..];
    }
  }

  // An entry whose key no other key precedes is the first after sorting.
  lemma LeastEntryFirst(es: seq<Entry>, m: nat)
    requires DistinctKeys(es) && m < |es| && forall i :: 0 <= i < |es| ==> !KeyBefore(es[i].key, es[m].key)
    ensures Sort(es, EntryBefore)[0].key == es[m].key
  {
    var s := Sort(es, EntryBefore);
    assert forall j :: 0 < j < |s| ==> KeyBefore(s[0].key, s[j].key) by {
      EntriesOrdered(es);
      SortSorted(es, EntryBefore);
      assert forall j :: 0 < j < |s| ==> EntryBefore(s[0], s[j]);
    }
    hide KeyBefore;
    assert es[m] in multiset(es) && es[m] in multiset(s);
    assert s[0] in multiset(s) && s[0] in multiset(es);
    var i :| 0 <= i < |es| && es[i] == s[0];
    var j :| 0 <= j < |s| && s[j] == es[m];
  }

  // --- Canonical forms and meanings determine each other ---

  lemma {:induction false} FieldsOf(es: seq<Entry>)
    requires DistinctKeys(es)
    ensures forall i :: 0 <= i < |es| ==> es[i].key in Fields(es) && Fields(es)[es[i].key] == Meaning(es[i].value)
  {
    if es != [] {
      FieldsOf(es[1..]);
    }
  }

  lemma {:induction false} EntryOfField(es: seq<Entry>, k: string) returns (i: nat)
    requires k in Fields(es)
    ensures i < |es| && es[i].key == k
  {
    if es[0].key == k {
      i := 0;
    } else {
      i := EntryOfField(es[1..], k);
      i := i + 1;
    }
  }

  // The fields are those of any list with the same entries: key order carries no meaning.
  lemma FieldsOfPermutation(a: seq<Entry>, b: seq<Entry>)
    requires multiset(a) == multiset(b) && DistinctKeys(a) && DistinctKeys(b)
    ensures Fields(a) == Fields(b)
  {
    FieldsOf(a);
    FieldsOf(b);
    forall e ensures e in a <==> e in b { assert e in multiset(a) <==> e in multiset(b); }
    forall k | k in Fields(a) ensures k in Fields(b) && Fields(b)[k] == Fields(a)[k] {
      var i := EntryOfField(a, k);
      assert a[i] in b;
    }
    forall k | k in Fields(b) ensures k in Fields(a) {
      var i := EntryOfField(b, k);
      assert b[i] in a;
    }
  }

  ghost predicate SortedKeys(es: seq<Entry>) {
    forall i, j :: 0 <= i < j < |es| ==> KeyBefore(es[i].key, es[j].key)
  }

  // Every dictionary inside has its keys in ascending order.
  ghost predicate Canonical(v: Json) {
    match v
    case List(items) => forall i :: 0 <= i < |items| ==> Canonical(items[i])
    case Dict(es) => SortedKeys(es) && forall i :: 0 <= i < |es| ==> Canonical(es[i].value)
    case _ => true
  }

  lemma SortedKeysDistinct(es: seq<Entry>)
    requires SortedKeys(es)
    ensures DistinctKeys(es)
  {
    forall i, j | 0 <= i < j < |es| ensures es[i].key != es[j].key {
      KeyOrder(es[i].key, es[j].key);
    }
  }

  lemma {:induction false} CanonKeepsMeaning(v: Json)
    requires Valid(v)
    ensures Canonical(Canon(v)) && Meaning(Canon(v)) == Meaning(v)
  {
    match v
    case List(items) =>
      forall i | 0 <= i < |items| ensures Canonical(Canon(items[i])) && Meaning(Canon(items[i])) == Meaning(items[i]) {
        CanonKeepsMeaning(items[i]);
      }
      assert Meaning(Canon(v)).items == Meaning(v).items;
    case Dict(es) =>
      var cs := CanonEntries(es);
      var s := Sort(cs, EntryBefore);
      EntriesOrdered(cs);
      SortSorted(cs, EntryBefore);
      assert forall i, j :: 0 <= i < j < |s| ==> EntryBefore(s[i], s[j]);
      SortedKeysDistinct(s);
      FieldsOfPermutation(s, cs);
      forall i | 0 <= i < |es| ensures Canonical(cs[i].value) && Meaning(cs[i].value) == Meaning(es[i].value) {
        CanonKeepsMeaning(es[i].value);
      }
      FieldsAgree(cs, es);
      forall i | 0 <= i < |s| ensures Canonical(s[i].value) {
        assert s[i] in multiset(s) && s[i] in multiset(cs);
      }
    case _ =>
  }

  lemma {:induction false} FieldsAgree(a: seq<Entry>, b: seq<Entry>)
    requires |a| == |b|
    requires forall i :: 0 <= i < |a| ==> a[i].key == b[i].key && Meaning(a[i].value) == Meaning(b[i].value)
    ensures Fields(a) == Fields(b)
  {
    if a != [] {
      FieldsAgree(a[1..], b[1..]);
    }
  }

  lemma {:induction false} CanonicalInjective(a: Json, b: Json)
    requires Canonical(a) && Canonical(b) && Meaning(a) == Meaning(b)
    ensures a == b
    decreases a, 0
  {
    match a
    case List(items) =>
      var ma, mb := Meaning(a).items, Meaning(b).items;
      assert |items| == |ma| == |mb| == |b.items|;
      forall i | 0 <= i < |items| ensures items[i] == b.items[i] {
        assert ma[i] == Meaning(items[i]) && mb[i] == Meaning(b.items[i]);
        CanonicalInjective(items[i], b.items[i]);
      }
    case Dict(es) => EntriesInjective(es, b.entries);
    case _ =>
  }

  lemma TailFields(es: seq<Entry>)
    requires es != [] && SortedKeys(es)
    ensures SortedKeys(es[1..]) && Fields(es[1..]) == Fields(es) - {es[0].key}
  {
    var t := es[1..];
    if es[0].key in Fields(t) {
      var i := EntryOfField(t, es[0].key);
      KeyOrder(es[0].key, es[i + 1].key);
    }
    assert Fields(es) == Fields(t)[es[0].key := Meaning(es[0].value)];
  }

  lemma {:induction false} EntriesInjective(a: seq<Entry>, b: seq<Entry>)
    requires Canonical(Dict(a)) && Canonical(Dict(b)) && Fields(a) == Fields(b)
    ensures a == b
    decreases a, 1
  {
    assert a != [] ==> a[0].key in Fields(a);
    assert b != [] ==> b[0].key in Fields(b);
    if a != [] && b != [] {
      LeastKey(a, b);
      assert Meaning(a[0].value) == Fields(a)[a[0].key] == Fields(b)[b[0].key] == Meaning(b[0].value);
      CanonicalInjective(a[0].value, b[0].value);
      TailFields(a);
      TailFields(b);
      TailCanonical(a);
      TailCanonical(b);
      EntriesInjective(a[1..], b[1..]);
      assert a == [a[0]] + a[1..] && b == [b[0]] + b[1..];
    }
  }

  lemma TailCanonical(es: seq<Entry>)
    requires es != [] && Canonical(Dict(es))
    ensures Canonical(es[0].value) && Canonical(Dict(es[1..]))
  {
    TailFields(es);
  }

  lemma LeastKey(a: seq<Entry>, b: seq<Entry>)
    requires a != [] && b != [] && SortedKeys(a) && SortedKeys(b) && Fields(a) == Fields(b)
    ensures a[0].key == b[0].key
  {
    assert a[0].key in Fields(a) && b[0].key in Fields(b);
    var i := EntryOfField(b, a[0].key);
    var j := EntryOfField(a, b[0].key);
    if i > 0 && j > 0 {
      KeyOrder(a[0].key, b[0].key);
    }
  }

  // Main result: equal text exactly when equal JSON value, whatever the order keys were inserted in.
  lemma DumpsDecidesMeaning(a: Json, b: Json)
    requires Valid(a) && Valid(b)
    ensures Dumps(a) == Dumps(b) <==> Meaning(a) == Meaning(b)
  {
    CanonKeepsMeaning(a);
    CanonKeepsMeaning(b);
    if Dumps(a) == Dumps(b) {
      ParsePrint(Canon(a), "");
      ParsePrint(Canon(b), "");
      assert Dumps(a) + "" == Dumps(a) && Dumps(b) + "" == Dumps(b);
    } else if Meaning(a) == Meaning(b) {
      CanonicalInjective(Canon(a), Canon(b));
    }
  }

  // Round trip: reading the printed text back gives the same JSON value and consumes all of it.
  lemma DumpsRoundTrip(v: Json)
    requires Valid(v)
    ensures Parse(Dumps(v)).Done? && Parse(Dumps(v)).rest == "" && Meaning(Parse(Dumps(v)).value) == Meaning(v)
  {
    CanonKeepsMeaning(v);
    ParsePrint(Canon(v), "");
    assert Dumps(v) + "" == Dumps(v);
  }
}
