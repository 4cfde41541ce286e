// Keyset paging of the ledger: list_events on the server, getNextPageParam in the browser.
module Paging {
  import opened Wrappers
  import opened Text
  import opened Sorting
  import opened AuditHashing
  import opened AuditService
  import AuditConcurrency

  datatype Filter = Filter(action: Option<string>, targetId: Option<Uuid>)

  predicate Selected(e: AuditEvent, f: Filter, before: Option<int>) {
    && (f.action.Some? ==> e.fields.action == f.action.value)
    && (f.targetId.Some? ==> e.fields.targetId == f.targetId)
    && (before.Some? ==> e.fields.sequence < before.value)
  }

  function Where(rows: seq<AuditEvent>, f: Filter, before: Option<int>): (r: seq<AuditEvent>)
    ensures forall e :: e in r <==> e in rows && Selected(e, f, before)
  {
    if rows == [] then []
    else
      var last := rows[|rows| - 1];
      assert rows == rows[..|rows| - 1] + [last];
      Where(rows[..|rows| - 1], f, before) + if Selected(last, f, before) then [last] else []
  }

  predicate Newer(a: AuditEvent, b: AuditEvent) { a.fields.sequence > b.fields.sequence }

  // SELECT ... WHERE ... ORDER BY sequence DESC
  function Matching(rows: seq<AuditEvent>, f: Filter, before: Option<int>): seq<AuditEvent> {
    Sort(Where(rows, f, before), Newer)
  }

  function Limit(s: seq<AuditEvent>, n: nat): seq<AuditEvent> { if |s| <= n then s else s[..n] }

  function ListEvents(rows: seq<AuditEvent>, f: Filter, before: Option<int>, limit: nat): seq<AuditEvent> {
    Limit(Matching(rows, f, before), limit)
  }

  // Math.min over the page's sequences.
  function LowestSequence(page: seq<AuditEvent>): (m: int)
    requires page != []
    ensures exists e :: e in page && e.fields.sequence == m
    ensures forall e :: e in page ==> m <= e.fields.sequence
  {
    var x := page[0].fields.sequence;
    if |page| == 1 then x
    else
      var m := LowestSequence(page[1..]);
      assert page == [page[0]] + page[1..];
      if x < m then x else m
  }

  function GetNextPageParam(lastPage: seq<AuditEvent>, limit: nat): Option<int>
    requires limit >= 1
  {
    if |lastPage| < limit then None else Some(LowestSequence(lastPage))
  }

  // --- The order in which a numbered table is listed ---

  // The committed rows of a tenant: sequences 1..n in commit order.
  ghost predicate Numbered(rows: seq<AuditEvent>) {
    forall i :: 0 <= i < |rows| ==> rows[i].fields.sequence == i + 1
  }

  // The selected rows among the first n, latest first.
  ghost function Descending(rows: seq<AuditEvent>, f: Filter, n: nat): seq<AuditEvent>
    requires n <= |rows|
  {
    if n == 0 then []
    else (if Selected(rows[n - 1], f, None) then [rows[n - 1]] else []) + Descending(rows, f, n - 1)
  }

  ghost predicate Ascending(s: seq<AuditEvent>) {
    forall i, j :: 0 <= i < j < |s| ==> Newer(s[j], s[i])
  }

  ghost predicate Falling(s: seq<AuditEvent>) {
    forall i, j :: 0 <= i < j < |s| ==> Newer(s[i], s[j])
  }

  ghost predicate Within(s: seq<AuditEvent>, n: int) {
    forall i :: 0 <= i < |s| ==> 1 <= s[i].fields.sequence <= n
  }

  lemma AppendLatest(s: seq<AuditEvent>, x: AuditEvent)
    requires Ascending(s) && Within(s, x.fields.sequence - 1) && x.fields.sequence >= 1
    ensures Ascending(s + [x]) && Within(s + [x], x.fields.sequence) && Within(s, x.fields.sequence)
  {
    var t := s + [x];
    forall i, j | 0 <= i < j < |t| ensures Newer(t[j], t[i]) {
      if j < |s| { assert t[i] == s[i] && t[j] == s[j]; } else { assert t[i] == s[i] && t[j] == x; }
    }
    forall i | 0 <= i < |t| ensures 1 <= t[i].fields.sequence <= x.fields.sequence {
      assert i < |s| ==> t[i] == s[i];
    }
  }

  lemma PrependLatest(x: AuditEvent, s: seq<AuditEvent>)
    requires Falling(s) && Within(s, x.fields.sequence - 1) && x.fields.sequence >= 1
    ensures Falling([x] + s) && Within([x] + s, x.fields.sequence)
  {
    var t := [x] + s;
    forall i, j | 0 <= i < j < |t| ensures Newer(t[i], t[j]) {
      assert t[j] == s[j - 1] && (if i == 0 then t[i] == x else t[i] == s[i - 1]);
    }
    forall i | 0 <= i < |t| ensures 1 <= t[i].fields.sequence <= x.fields.sequence {
      assert if i == 0 then t[i] == x else t[i] == s[i - 1];
    }
  }

  lemma {:induction false} WhereAscending(rows: seq<AuditEvent>, f: Filter, before: Option<int>)
    requires Numbered(rows)
    ensures Ascending(Where(rows, f, before)) && Within(Where(rows, f, before), |rows|)
  {
    hide Selected, Ascending, Within;
    if rows == [] {
      EmptyOrders();
    } else {
      var n := |rows| - 1;
      WhereAscending(rows[..n], f, before);
      var w := Where(rows[..n], f, before);
      AppendLatest(w, rows[n]);
      assert Where(rows, f, before) == w || Where(rows, f, before) == w + [rows[n]];
    }
  }

  lemma EmptyOrders()
    ensures Ascending([]) && Falling([]) && Within([], 0)
  {
  }

  // How many of the numbered rows lie below the bound.
  function Below(rows: seq<AuditEvent>, before: Option<int>): nat {
    if before.None? || before.value > |rows| then |rows|
    else if before.value <= 1 then 0 else before.value - 1
  }

  lemma {:induction false} SameRows(rows: seq<AuditEvent>, f: Filter, before: Option<int>)
    requires Numbered(rows)
    ensures multiset(Where(rows, f, before)) == multiset(Descending(rows, f, Below(rows, before)))
  {
    if rows != [] {
      var n := |rows| - 1;
      var p, last := rows[..n], rows[n];
      SameRows(p, f, before);
      assert Selected(last, f, before) <==> Selected(last, f, None) && Below(rows, before) == n + 1;
      hide Selected;
      DescendingOfPrefix(p, rows, f, Below(p, before));
      assert Below(p, before) == if Below(rows, before) == n + 1 then n else Below(rows, before);
    }
  }

  lemma {:induction false} DescendingOfPrefix(p: seq<AuditEvent>, rows: seq<AuditEvent>, f: Filter, n: nat)
    requires p <= rows && n <= |p|
    ensures Descending(p, f, n) == Descending(rows, f, n)
  {
    if n > 0 { DescendingOfPrefix(p, rows, f, n - 1); }
  }

  lemma {:induction false} DescendingFalls(rows: seq<AuditEvent>, f: Filter, n: nat)
    requires Numbered(rows) && n <= |rows|
    ensures Falling(Descending(rows, f, n)) && Within(Descending(rows, f, n), n)
  {
    hide Selected, Falling;
    if n == 0 {
      EmptyOrders();
    } else {
      var rest := Descending(rows, f, n - 1);
      DescendingFalls(rows, f, n - 1);
      PrependLatest(rows[n - 1], rest);
      assert Descending(rows, f, n) == rest || Descending(rows, f, n) == [rows[n - 1]] + rest;
    }
  }

  // ORDER BY sequence DESC on a numbered table reads it from the end.
  lemma MatchingIsDescending(rows: seq<AuditEvent>, f: Filter, before: Option<int>)
    requires Numbered(rows)
    ensures Matching(rows, f, before) == Descending(rows, f, Below(rows, before))
  {
    hide Where, Descending;
    var w, d := Where(rows, f, before), Descending(rows, f, Below(rows, before));
    WhereAscending(rows, f, before);
    SortSorted(w, Newer);
    DescendingFalls(rows, f, Below(rows, before));
    SameRows(rows, f, before);
    SortedUnique(Sort(w, Newer), d, Newer);
  }

  lemma LowestIsLast(page: seq<AuditEvent>)
    requires page != [] && Falling(page)
    ensures LowestSequence(page) == page[|page| - 1].fields.sequence
  {
    hide LowestSequence;
    var n := |page| - 1;
    assert page[n] in page;
    var e :| e in page && e.fields.sequence == LowestSequence(page);
    var i :| 0 <= i < |page| && page[i] == e;
    if i < n { assert Newer(page[i], page[n]); }
  }

  // The first `limit` rows of a listing, and everything below the last of them, make up all of it.
  ghost predicate Splits(rows: seq<AuditEvent>, f: Filter, d: seq<AuditEvent>, limit: nat)
    requires 1 <= limit <= |d|
  {
    var m := d[limit - 1].fields.sequence;
    1 <= m <= |rows| && d == d[..limit] + Descending(rows, f, m - 1)
  }

  lemma {:induction false} SplitListing(rows: seq<AuditEvent>, f: Filter, n: nat, limit: nat)
    requires Numbered(rows) && n <= |rows| && 1 <= limit <= |Descending(rows, f, n)|
    ensures Splits(rows, f, Descending(rows, f, n), limit)
  {
    DescendingStep(rows, f, n);
    hide Selected, Descending, Splits;
    var rest, r := Descending(rows, f, n - 1), rows[n - 1];
    assert r.fields.sequence == n;
    if !Selected(r, f, None) {
      SplitListing(rows, f, n - 1, limit);
    } else if limit == 1 {
      SplitFirst(rows, f, r, rest);
    } else {
      SplitListing(rows, f, n - 1, limit - 1);
      SplitBehind(rows, f, r, rest, limit - 1);
    }
  }

  lemma DescendingStep(rows: seq<AuditEvent>, f: Filter, n: nat)
    requires 1 <= n <= |rows|
    ensures var rest := Descending(rows, f, n - 1);
            Descending(rows, f, n) == if Selected(rows[n - 1], f, None) then [rows[n - 1]] + rest else rest
  {
  }

  lemma SplitFirst(rows: seq<AuditEvent>, f: Filter, r: AuditEvent, rest: seq<AuditEvent>)
    requires 1 <= r.fields.sequence <= |rows| && rest == Descending(rows, f, r.fields.sequence - 1)
    ensures Splits(rows, f, [r] + rest, 1)
  {
    hide Descending;
    assert ([r] + rest)[..1] == [r];
  }

  lemma SplitBehind(rows: seq<AuditEvent>, f: Filter, r: AuditEvent, rest: seq<AuditEvent>, k: nat)
    requires 1 <= k <= |rest| && Splits(rows, f, rest, k)
    ensures Splits(rows, f, [r] + rest, k + 1)
  {
    hide Descending;
    var d := [r] + rest;
    assert d[k] == rest[k - 1] && d[..k + 1] == [r] + rest[..k];
  }

  // --- Following the next-page parameter ---

  // The table as request k sees it. Rows committed between requests come after all earlier ones.
  type Snapshots = nat -> seq<AuditEvent>

  ghost predicate Growing(snap: Snapshots) {
    forall k :: Numbered(snap(k)) && snap(0) <= snap(k)
  }

  // What one request returns, and where the next one starts.
  lemma OnePage(rows: seq<AuditEvent>, f: Filter, before: Option<int>, limit: nat)
    requires Numbered(rows) && limit >= 1
    ensures var page := ListEvents(rows, f, before, limit);
            var d := Descending(rows, f, Below(rows, before));
            match GetNextPageParam(page, limit)
            case None => page == d
            case Some(b) => 1 <= b <= Below(rows, before) && |page| == limit && d == page + Descending(rows, f, b - 1)
  {
    hide Matching, Descending, LowestSequence;
    var n := Below(rows, before);
    var d := Descending(rows, f, n);
    MatchingIsDescending(rows, f, before);
    DescendingFalls(rows, f, n);
    if |d| >= limit {
      SplitListing(rows, f, n, limit);
      assert Within(d, n);
      LowestIsLast(d[..limit]);
      assert |d| == limit ==> d[..limit] == d;
    }
  }

  ghost function Remaining(snap: Snapshots, k: nat, before: Option<int>): nat {
    if before.None? then |snap(k)| + 1 else Below(snap(k), before)
  }

  lemma NextPageIsNearer(snap: Snapshots, k: nat, f: Filter, before: Option<int>, limit: nat)
    requires limit >= 1 && Growing(snap)
    ensures var next := GetNextPageParam(ListEvents(snap(k), f, before, limit), limit);
            next.Some? ==> Remaining(snap, k + 1, next) < Remaining(snap, k, before)
  {
    hide ListEvents, Descending, LowestSequence;
    assert Numbered(snap(k)) && Numbered(snap(k + 1));
    OnePage(snap(k), f, before, limit);
  }

  // The pages loaded from request k on. That the recursion ends is part of what is proved.
  function Pages(snap: Snapshots, k: nat, f: Filter, before: Option<int>, limit: nat): seq<seq<AuditEvent>>
    requires limit >= 1 && Growing(snap)
    decreases Remaining(snap, k, before)
  {
    var page := ListEvents(snap(k), f, before, limit);
    NextPageIsNearer(snap, k, f, before, limit);
    match GetNextPageParam(page, limit)
    case None => [page]
    case Some(b) => [page] + Pages(snap, k + 1, f, Some(b), limit)
  }

  function Concat(pages: seq<seq<AuditEvent>>): seq<AuditEvent> {
    if pages == [] then [] else pages[0] + Concat(pages[1..])
  }

  lemma {:induction false} LaterPages(snap: Snapshots, k: nat, f: Filter, b: int, limit: nat)
    requires limit >= 1 && Growing(snap) && 1 <= b <= |snap(0)|
    ensures Concat(Pages(snap, k, f, Some(b), limit)) == Descending(snap(0), f, b - 1)
    decreases b
  {
    hide ListEvents, Descending;
    var page := ListEvents(snap(k), f, Some(b), limit);
    assert Numbered(snap(k)) && snap(0) <= snap(k);
    OnePage(snap(k), f, Some(b), limit);
    DescendingOfPrefix(snap(0), snap(k), f, b - 1);
    var next := GetNextPageParam(page, limit);
    if next.None? {
      assert Pages(snap, k, f, Some(b), limit) == [page] && [page][1..] == [];
    } else {
      var rest := Pages(snap, k + 1, f, next, limit);
      LaterPages(snap, k + 1, f, next.value, limit);
      DescendingOfPrefix(snap(0), snap(k), f, next.value - 1);
      assert Pages(snap, k, f, Some(b), limit) == [page] + rest && ([page] + rest)[1..] == rest;
    }
  }

  // No filter on a column, or the row has its value.
  ghost predicate Asked(e: AuditEvent, f: Filter) {
    f.action in {None, Some(e.fields.action)} && (f.targetId == None || f.targetId == e.fields.targetId)
  }

  lemma SelectedIsAsked(f: Filter)
    ensures forall e :: Selected(e, f, None) <==> Asked(e, f)
  {
  }

  lemma MatchingMeaning(rows: seq<AuditEvent>, f: Filter)
    requires Numbered(rows)
    ensures var all := Matching(rows, f, None);
            Falling(all) && forall e :: e in all <==> e in rows && Asked(e, f)
  {
    SelectedIsAsked(f);
    hide Selected;
    var all, w := Matching(rows, f, None), Where(rows, f, None);
    MatchingIsDescending(rows, f, None);
    DescendingFalls(rows, f, |rows|);
    forall e ensures e in all <==> e in w { assert e in multiset(all) <==> e in multiset(w); }
  }

  // Main result: however the ledger grows between requests, the loaded pages together are exactly
  // the matching events of the first request's table, each once, latest first.
  lemma PagingExact(snap: Snapshots, f: Filter, limit: nat)
    requires limit >= 1 && Growing(snap)
    ensures var all := Concat(Pages(snap, 0, f, None, limit));
            && all == Matching(snap(0), f, None) && Falling(all)
            && forall e :: e in all <==> e in snap(0) && Asked(e, f)
  {
    hide ListEvents, Descending, Matching;
    var rows := snap(0);
    var page := ListEvents(rows, f, None, limit);
    assert Numbered(rows);
    OnePage(rows, f, None, limit);
    MatchingIsDescending(rows, f, None);
    MatchingMeaning(rows, f);
    var next := GetNextPageParam(page, limit);
    if next.None? {
      assert Pages(snap, 0, f, None, limit) == [page] && [page][1..] == [];
    } else {
      var rest := Pages(snap, 1, f, next, limit);
      LaterPages(snap, 1, f, next.value, limit);
      assert Pages(snap, 0, f, None, limit) == [page] + rest && ([page] + rest)[1..] == rest;
    }
  }

  // The same for the tables of any execution of concurrent recorders, the k-th request being
  // served in state times(k).
  lemma PagingExactUnderRecording(h: Hash, states: seq<AuditConcurrency.Db>, steps: seq<AuditConcurrency.Step>,
                                  times: nat -> nat, t: Uuid, f: Filter, limit: nat)
    requires AuditConcurrency.Execution(h, states, steps) && limit >= 1
    requires forall k :: times(0) <= times(k) < |states|
    ensures var snap := (k: nat) requires times(k) < |states| => AuditConcurrency.Rows(states[times(k)], t);
            && Growing(snap) && Concat(Pages(snap, 0, f, None, limit)) == Matching(snap(0), f, None)
            && Falling(Matching(snap(0), f, None)) && forall e :: e in Matching(snap(0), f, None) <==> e in snap(0) && Asked(e, f)
  {
    var snap := (k: nat) requires times(k) < |states| => AuditConcurrency.Rows(states[times(k)], t);
    forall k ensures Numbered(snap(k)) && snap(0) <= snap(k) {
      AuditConcurrency.ReachableInv(h, states, steps, times(k));
      AuditConcurrency.OrderedIsCommitOrder(h, states[times(k)], t);
      AuditConcurrency.AppendOnly(h, states, steps, times(0), times(k), t);
    }
    PagingExact(snap, f, limit);
  }
}
