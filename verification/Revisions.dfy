// The walk that tells a migration run whether the schema moved forward: is `start` an ancestor of
// `end` in the graph of revisions?
module Revisions {
  import opened Wrappers
  import opened Sets

  type Rev = string

  // What a revision script names as its down_revision: nothing, one id, or a tuple of ids.
  datatype Down = Root | One(parent: Rev) | Merge(parents: seq<Rev>)

  // script_dir.get_revision raises on an id that is not a key.
  type Graph = map<Rev, Down>

  // Raised: the lookup of a revision failed.
  datatype Answer = Yes | No | Raised

  function Parents(g: Graph, x: Rev): seq<Rev> {
    if x !in g then []
    else match g[x]
         case Root => []
         case One(p) => [p]
         case Merge(ps) => ps
  }

  // --- Paths ---

  // p leads from a revision down to one of its ancestors, edge by edge.
  ghost predicate IsPath(g: Graph, p: seq<Rev>) {
    && p != []
    && forall i {:trigger p[i]} :: 0 <= i < |p| - 1 ==> p[i + 1] in Parents(g, p[i])
  }

  ghost predicate PathFrom(g: Graph, x: Rev, p: seq<Rev>, y: Rev) { IsPath(g, p) && p[0] == x && p[|p| - 1] == y }

  ghost predicate Reaches(g: Graph, x: Rev, y: Rev) { exists p :: PathFrom(g, x, p, y) }

  ghost predicate ProperAncestor(g: Graph, a: Rev, x: Rev) { exists p :: PathFrom(g, x, p, a) && |p| > 1 }

  // Such a path reaches `start` for the first time, and from a revision that has it as its only parent.
  ghost predicate PlainArrival(g: Graph, x: Rev, p: seq<Rev>, start: Rev) {
    && PathFrom(g, x, p, start) && |p| > 1
    && start !in p[..|p| - 1]
    && p[|p| - 2] in g && g[p[|p| - 2]] == One(start)
  }

  ghost predicate Found(g: Graph, start: Rev, x: Rev) { exists p :: PlainArrival(g, x, p, start) }

  // No cycle of down-links goes through a merge. Acyclic graphs and merge-free graphs are of this kind.
  ghost predicate MergesOffCycles(g: Graph) {
    forall x, y | x in g && g[x].Merge? && y in g[x].parents :: !Reaches(g, y, x)
  }

  ghost predicate Acyclic(g: Graph) { forall x :: !ProperAncestor(g, x, x) }

  ghost predicate MergeFree(g: Graph) { forall x | x in g :: !g[x].Merge? }

  lemma AcyclicOrMergeFree(g: Graph)
    requires Acyclic(g) || MergeFree(g)
    ensures MergesOffCycles(g)
  {
    if Acyclic(g) {
      forall x, y | x in g && g[x].Merge? && y in g[x].parents && Reaches(g, y, x) ensures ProperAncestor(g, x, x) { WayBack(g, x, y); }
    }
  }

  lemma WayBack(g: Graph, x: Rev, y: Rev)
    requires y in Parents(g, x) && Reaches(g, y, x)
    ensures ProperAncestor(g, x, x)
  {
    var p :| PathFrom(g, y, p, x);
    Prepend(g, x, y, p, x);
    assert PathFrom(g, x, [x] + p, x) && |[x] + p| > 1;
  }

  lemma Prepend(g: Graph, x: Rev, y: Rev, p: seq<Rev>, z: Rev)
    requires PathFrom(g, y, p, z) && y in Parents(g, x)
    ensures PathFrom(g, x, [x] + p, z)
  {
    var q := [x] + p;
    forall i | 0 <= i < |q| - 1 ensures q[i + 1] in Parents(g, q[i]) {
      if i > 0 { assert q[i] == p[i - 1] && q[i + 1] == p[i]; }
    }
  }

  lemma DropFirst(g: Graph, x: Rev, p: seq<Rev>, z: Rev)
    requires PathFrom(g, x, p, z) && |p| > 1
    ensures PathFrom(g, p[1], p[1..], z) && p[1] in Parents(g, x)
  {
    var q := p[1..];
    assert p[0 + 1] in Parents(g, p[0]);
    forall i | 0 <= i < |q| - 1 ensures q[i + 1] in Parents(g, q[i]) { assert q[i] == p[i + 1]; }
  }

  lemma Prefix(g: Graph, x: Rev, p: seq<Rev>, z: Rev, n: nat)
    requires PathFrom(g, x, p, z) && n < |p|
    ensures PathFrom(g, x, p[..n + 1], p[n])
  {
  }

  lemma Suffix(g: Graph, x: Rev, p: seq<Rev>, z: Rev, n: nat)
    requires PathFrom(g, x, p, z) && n < |p|
    ensures PathFrom(g, p[n], p[n..], z)
    decreases n
  {
    if n == 0 {
      assert p[0..] == p;
    } else {
      DropFirst(g, x, p, z);
      Suffix(g, p[1], p[1..], z, n - 1);
      assert p[1..][n - 1..] == p[n..];
    }
  }

  // --- The ways the walk can go ---

  // p is a way from p[0] to where a walk ends: past revisions other than `start`, up to the only parent
  // of one if that is `start`, or to a revision that cannot be looked up. A merge's parent that is
  // `start` itself is no way on.
  ghost predicate Way(g: Graph, start: Rev, p: seq<Rev>)
    decreases |p|
  {
    && p != [] && p[0] != start
    && if |p| == 1 then p[0] !in g
       else
         && p[0] in g && p[1] in Parents(g, p[0])
         && if p[1] == start then |p| == 2 && g[p[0]].One? else Way(g, start, p[1..])
  }

  function Last(p: seq<Rev>): Rev
    requires p != []
  {
    p[|p| - 1]
  }

  ghost predicate HasWay(g: Graph, start: Rev, x: Rev) { exists p :: Way(g, start, p) && p[0] == x }

  // No parent of the merge before the j-th has a way on.
  ghost predicate NoneBefore(g: Graph, start: Rev, parents: seq<Rev>, j: nat) {
    forall i | 0 <= i < j && i < |parents| :: parents[i] == start || !HasWay(g, start, parents[i])
  }

  // The way that comes first when merges try their parents from left to right.
  ghost predicate FirstWay(g: Graph, start: Rev, p: seq<Rev>)
    decreases |p|
  {
    && Way(g, start, p)
    && (|p| > 1 && p[1] != start ==> FirstWay(g, start, p[1..]))
    && (p[0] in g && g[p[0]].Merge? ==>
          exists j: nat :: j < |g[p[0]].parents| && g[p[0]].parents[j] == p[1] && NoneBefore(g, start, g[p[0]].parents, j))
  }

  function Outcome(g: Graph, p: seq<Rev>): Answer
    requires p != []
  {
    if Last(p) in g then Yes else Raised
  }

  ghost predicate LeadsTo(g: Graph, start: Rev, x: Rev, r: Answer) {
    exists p :: FirstWay(g, start, p) && p[0] == x && Outcome(g, p) == r
  }

  lemma UnknownEnds(g: Graph, start: Rev, x: Rev)
    requires x !in g && x != start
    ensures LeadsTo(g, start, x, Raised)
  {
    assert FirstWay(g, start, [x]);
  }

  lemma RootHasNoWay(g: Graph, start: Rev, x: Rev)
    requires x in g && g[x].Root?
    ensures !HasWay(g, start, x)
  {
  }

  lemma ArrivesAtParent(g: Graph, start: Rev, x: Rev)
    requires x in g && g[x] == One(start) && x != start
    ensures LeadsTo(g, start, x, if start in g then Yes else Raised)
  {
    assert FirstWay(g, start, [x, start]);
  }

  lemma WayTail(g: Graph, start: Rev, p: seq<Rev>)
    requires Way(g, start, p) && p[0] in g && g[p[0]] != One(start)
    ensures |p| > 1 && p[1] in Parents(g, p[0]) && p[1] != start && Way(g, start, p[1..])
  {
  }

  lemma OnlyParent(g: Graph, start: Rev, x: Rev, y: Rev)
    requires x in g && g[x] == One(y) && x != start && y != start
    ensures HasWay(g, start, x) ==> HasWay(g, start, y)
    ensures forall r :: LeadsTo(g, start, y, r) ==> LeadsTo(g, start, x, r)
  {
    hide HasWay, LeadsTo;
    if HasWay(g, start, x) { OnlyWay(g, start, x, y); }
    forall r | LeadsTo(g, start, y, r) ensures LeadsTo(g, start, x, r) { LeadsThrough(g, start, x, y, r); }
  }

  lemma OnlyWay(g: Graph, start: Rev, x: Rev, y: Rev)
    requires x in g && g[x] == One(y) && y != start && HasWay(g, start, x)
    ensures HasWay(g, start, y)
  {
    var p :| Way(g, start, p) && p[0] == x;
    WayTail(g, start, p);
    assert p[1..][0] == y;
  }

  lemma LeadsThrough(g: Graph, start: Rev, x: Rev, y: Rev, r: Answer)
    requires x in g && g[x] == One(y) && x != start && y != start && LeadsTo(g, start, y, r)
    ensures LeadsTo(g, start, x, r)
  {
    var q :| FirstWay(g, start, q) && q[0] == y && Outcome(g, q) == r;
    hide HasWay, NoneBefore;
    var p := [x] + q;
    assert p[1..] == q && p[1] == y && p[0] == x;
    assert FirstWay(g, start, p);
  }

  lemma ThroughMerge(g: Graph, start: Rev, x: Rev, j: nat, r: Answer)
    requires x in g && g[x].Merge? && x != start && j < |g[x].parents| && g[x].parents[j] != start
    requires NoneBefore(g, start, g[x].parents, j) && LeadsTo(g, start, g[x].parents[j], r)
    ensures LeadsTo(g, start, x, r)
  {
    var y := g[x].parents[j];
    var q :| FirstWay(g, start, q) && q[0] == y && Outcome(g, q) == r;
    hide NoneBefore, HasWay;
    assert ([x] + q)[1..] == q && ([x] + q)[1] == y;
    assert FirstWay(g, start, [x] + q);
  }

  lemma NoWayThroughMerge(g: Graph, start: Rev, x: Rev)
    requires x in g && g[x].Merge? && NoneBefore(g, start, g[x].parents, |g[x].parents|)
    ensures !HasWay(g, start, x)
  {
    forall p | Way(g, start, p) ensures p[0] != x {
      if p[0] == x {
        WayTail(g, start, p);
        assert p[1..][0] == p[1] && HasWay(g, start, p[1]);
      }
    }
  }

  // A set of revisions closed under single parents that never meets `start` has no way out.
  lemma {:induction false} NoWayOffCycle(g: Graph, start: Rev, seen: set<Rev>, p: seq<Rev>)
    requires forall y | y in seen :: y in g && g[y].One? && g[y].parent in seen && g[y].parent != start
    requires Way(g, start, p)
    ensures p[0] !in seen
    decreases |p|
  {
    if p[0] in seen {
      WayTail(g, start, p);
      NoWayOffCycle(g, start, seen, p[1..]);
    }
  }

  lemma CycleHasNoWay(g: Graph, start: Rev, seen: set<Rev>, x: Rev)
    requires x in seen
    requires forall y | y in seen :: y in g && g[y].One? && g[y].parent in seen && g[y].parent != start
    ensures !HasWay(g, start, x)
  {
    forall p | Way(g, start, p) ensures p[0] != x { NoWayOffCycle(g, start, seen, p); }
  }

  // All first ways from a revision end alike.
  lemma {:induction false} OneFirstWay(g: Graph, start: Rev, p: seq<Rev>, q: seq<Rev>)
    requires FirstWay(g, start, p) && FirstWay(g, start, q) && p[0] == q[0]
    ensures Last(p) == Last(q)
    decreases |p|
  {
    if p[0] in g && g[p[0]] != One(start) {
      WayTail(g, start, p);
      WayTail(g, start, q);
      if g[p[0]].Merge? { SameParent(g, start, p, q); }
      OneFirstWay(g, start, p[1..], q[1..]);
    }
  }

  lemma SameParent(g: Graph, start: Rev, p: seq<Rev>, q: seq<Rev>)
    requires FirstWay(g, start, p) && FirstWay(g, start, q) && p[0] == q[0] && p[0] in g && g[p[0]].Merge?
    ensures |p| > 1 && |q| > 1 && p[1] == q[1]
  {
    var parents := g[p[0]].parents;
    WayTail(g, start, p);
    WayTail(g, start, q);
    var j: nat :| j < |parents| && parents[j] == p[1] && NoneBefore(g, start, parents, j);
    var k: nat :| k < |parents| && parents[k] == q[1] && NoneBefore(g, start, parents, k);
    assert p[1..][0] == p[1] && q[1..][0] == q[1];
    assert HasWay(g, start, p[1]) && HasWay(g, start, q[1]);
  }

  // --- Termination ---

  ghost function Below(g: Graph, x: Rev): set<Rev> { set y | y in g.Keys && Reaches(g, x, y) }

  lemma BelowParent(g: Graph, x: Rev, y: Rev)
    requires y in Parents(g, x)
    ensures Below(g, y) <= Below(g, x)
    ensures forall z | Reaches(g, y, z) :: Reaches(g, x, z)
  {
    forall z | Reaches(g, y, z) ensures Reaches(g, x, z) {
      var p :| PathFrom(g, y, p, z);
      Prepend(g, x, y, p, z);
    }
  }

  lemma MergeDescends(g: Graph, x: Rev, y: Rev)
    requires MergesOffCycles(g) && x in g && g[x].Merge? && y in g[x].parents
    ensures Below(g, y) < Below(g, x)
  {
    BelowParent(g, x, y);
    assert PathFrom(g, x, [x], x);
    assert x in Below(g, x) && x !in Below(g, y);
  }

  // --- The walk ---

  // The answer in the graph's own terms: never when the ids agree or `end` is absent, always when only
  // `start` is absent; else what the first way from `end` comes to, and No if there is no way.
  ghost predicate Answers(g: Graph, start: Option<Rev>, end: Option<Rev>, r: Answer) {
    if start == end || end.None? then r == No
    else if start.None? then r == Yes
    else if r == No then !HasWay(g, start.value, end.value)
    else LeadsTo(g, start.value, end.value, r)
  }

  // That leaves one answer.
  lemma AnswerUnique(g: Graph, start: Option<Rev>, end: Option<Rev>, r: Answer, r': Answer)
    requires Answers(g, start, end, r) && Answers(g, start, end, r')
    ensures r == r'
  {
    if start != end && end.Some? && start.Some? {
      if r != No { LeadsHasWay(g, start.value, end.value, r); }
      if r' != No { LeadsHasWay(g, start.value, end.value, r'); }
      if r != No && r' != No {
        var p :| FirstWay(g, start.value, p) && p[0] == end.value && Outcome(g, p) == r;
        var q :| FirstWay(g, start.value, q) && q[0] == end.value && Outcome(g, q) == r';
        OneFirstWay(g, start.value, p, q);
      }
    }
  }

  lemma LeadsHasWay(g: Graph, start: Rev, x: Rev, r: Answer)
    requires LeadsTo(g, start, x, r)
    ensures HasWay(g, start, x)
  {
    var p :| FirstWay(g, start, p) && p[0] == x && Outcome(g, p) == r;
    assert Way(g, start, p);
  }

  method IsUpgradeRevision(g: Graph, start: Option<Rev>, end: Option<Rev>) returns (r: Answer)
    requires MergesOffCycles(g)
    ensures Answers(g, start, end, r)
    decreases if end.Some? then |Below(g, end.value)| else 0
  {
    hide IsPath, PathFrom, Reaches, Below, MergesOffCycles, Way, FirstWay, HasWay, LeadsTo;
    if start == end { return No; }
    if end.None? { return No; }
    if start.None? { return Yes; }
    var rev := end.value;
    if rev !in g {
      UnknownEnds(g, start.value, rev);
      return Raised;
    }
    var seen: set<Rev> := {};
    while true
      invariant rev in g
      invariant forall y | y in seen :: y in g && y != start.value && g[y].One? && g[y].parent in seen + {rev}
      invariant rev == start.value ==> LeadsTo(g, start.value, end.value, Yes)
      invariant rev != start.value ==>
                  && (HasWay(g, start.value, end.value) ==> HasWay(g, start.value, rev))
                  && forall a :: LeadsTo(g, start.value, rev, a) ==> LeadsTo(g, start.value, end.value, a)
      invariant Below(g, rev) <= Below(g, end.value)
      decreases g.Keys - seen
    {
      if rev == start.value { return Yes; }
      if rev in seen { break; }
      seen := seen + {rev};
      match g[rev]
      case Root =>
        RootHasNoWay(g, start.value, rev);
        return No;
      case Merge(parents) =>
        for i := 0 to |parents|
          invariant NoneBefore(g, start.value, parents, i)
        {
          MergeDescends(g, rev, parents[i]);
          SubsetSize(Below(g, parents[i]), Below(g, end.value));
          r := IsUpgradeRevision(g, start, Some(parents[i]));
          if r != No {
            ThroughMerge(g, start.value, rev, i, r);
            return;
          }
        }
        NoWayThroughMerge(g, start.value, rev);
        return No;
      case One(down) =>
        BelowParent(g, rev, down);
        if down == start.value { ArrivesAtParent(g, start.value, rev); } else { OnlyParent(g, start.value, rev, down); }
        if down !in g {
          if down != start.value { UnknownEnds(g, start.value, down); }
          return Raised;
        }
        rev := down;
    }
    CycleHasNoWay(g, start.value, seen, rev);
    return No;
  }

  // --- What the answer says about descent ---

  lemma {:induction false} WayIsPath(g: Graph, start: Rev, p: seq<Rev>)
    requires Way(g, start, p)
    ensures PathFrom(g, p[0], p, Last(p))
    ensures Last(p) !in g || PlainArrival(g, p[0], p, start)
    decreases |p|
  {
    if |p| > 1 && p[1] != start {
      var q := p[1..];
      WayIsPath(g, start, q);
      assert [p[0]] + q == p;
      Prepend(g, p[0], p[1], q, Last(q));
      if Last(p) in g {
        assert p[..|p| - 1] == [p[0]] + q[..|q| - 1];
        assert p[|p| - 2] == q[|q| - 2];
      }
    }
  }

  lemma {:induction false} ArrivalIsWay(g: Graph, start: Rev, x: Rev, p: seq<Rev>)
    requires PlainArrival(g, x, p, start)
    ensures Way(g, start, p)
    decreases |p|
  {
    DropFirst(g, x, p, start);
    assert p[..|p| - 1][0] == p[0];
    if |p| > 2 {
      var q := p[1..];
      assert q[..|q| - 1] == p[..|p| - 1][1..];
      assert p[..|p| - 1][1] == p[1];
      assert q[|q| - 2] == p[|p| - 2];
      ArrivalIsWay(g, start, p[1], q);
    }
  }

  // Where every revision below `end` is known, Yes means exactly such an arrival; in general Yes comes
  // with one, No without, and a failed lookup with an unknown revision below `end`.
  lemma AnswerMeaning(g: Graph, start: Rev, end: Rev, r: Answer)
    requires start != end && Answers(g, Some(start), Some(end), r)
    ensures r == Yes ==> Found(g, start, end)
    ensures r == No ==> !Found(g, start, end)
    ensures r == Raised ==> exists x :: Reaches(g, end, x) && x !in g
  {
    if r == No {
      forall p ensures !PlainArrival(g, end, p, start) {
        if PlainArrival(g, end, p, start) { ArrivalIsWay(g, start, end, p); }
      }
    } else {
      var p :| FirstWay(g, start, p) && p[0] == end && Outcome(g, p) == r;
      WayIsPath(g, start, p);
      assert Reaches(g, end, Last(p));
    }
  }

  // Yes is never wrong.
  lemma FoundIsAncestor(g: Graph, start: Rev, end: Rev)
    requires Found(g, start, end)
    ensures ProperAncestor(g, start, end) && start != end
  {
    var p :| PlainArrival(g, end, p, start);
    assert PathFrom(g, end, p, start) && |p| > 1;
    assert p[..|p| - 1][0] == end;
  }

  // A path that ends at `start` can be cut where it first gets there.
  lemma {:induction false} FirstArrival(g: Graph, start: Rev, end: Rev, p: seq<Rev>) returns (q: seq<Rev>)
    requires PathFrom(g, end, p, start) && end != start
    ensures PathFrom(g, end, q, start) && |q| > 1 && start !in q[..|q| - 1]
    decreases |p|
  {
    var n := |p| - 1;
    if start in p[..n] {
      var i :| 0 <= i < n && p[..n][i] == start;
      Prefix(g, end, p, start, i);
      q := FirstArrival(g, start, end, p[..i + 1]);
    } else {
      q := p;
    }
  }

  // No merge lists `start`: what a caller can look up before asking.
  ghost predicate NotMerged(g: Graph, start: Rev) { forall x | x in g && g[x].Merge? :: start !in g[x].parents }

  // The answer is exact whenever no merge has `start` as a direct parent, in every merge-free history
  // in particular.
  lemma ExactUnlessMerged(g: Graph, start: Rev, end: Rev)
    requires MergeFree(g) || NotMerged(g, start)
    ensures Found(g, start, end) <==> ProperAncestor(g, start, end) && start != end
  {
    if Found(g, start, end) { FoundIsAncestor(g, start, end); }
    if ProperAncestor(g, start, end) && start != end {
      var p :| PathFrom(g, end, p, start) && |p| > 1;
      var q := FirstArrival(g, start, end, p);
      var c := q[|q| - 2];
      assert q[(|q| - 2) + 1] in Parents(g, c);
      assert PlainArrival(g, end, q, start);
    }
  }

  ghost predicate PlainChildBelow(g: Graph, start: Rev, end: Rev) {
    exists c :: c in g && g[c] == One(start) && Reaches(g, end, c)
  }

  // On an acyclic history the answer is Yes exactly when some revision at or below `end` has `start` as
  // its only parent ...
  lemma AcyclicAnswer(g: Graph, start: Rev, end: Rev)
    requires Acyclic(g)
    ensures Found(g, start, end) <==> PlainChildBelow(g, start, end)
  {
    if Found(g, start, end) { ArrivalHasPlainChild(g, start, end); }
    if PlainChildBelow(g, start, end) { PlainChildArrives(g, start, end); }
  }

  lemma ArrivalHasPlainChild(g: Graph, start: Rev, end: Rev)
    requires Found(g, start, end)
    ensures PlainChildBelow(g, start, end)
  {
    hide IsPath;
    var p :| PlainArrival(g, end, p, start);
    Prefix(g, end, p, start, |p| - 2);
    assert p[..|p| - 2 + 1] == p[..|p| - 1];
    assert Reaches(g, end, p[|p| - 2]);
  }

  lemma PlainChildArrives(g: Graph, start: Rev, end: Rev)
    requires Acyclic(g) && PlainChildBelow(g, start, end)
    ensures Found(g, start, end)
  {
    var c :| c in g && g[c] == One(start) && Reaches(g, end, c);
    var p :| PathFrom(g, end, p, c);
    hide Acyclic, IsPath;
    Append(g, end, p, c, start);
    var q := p + [start];
    NoRepeat(g, start, end, q);
    assert q[..|q| - 1] == p && q[|q| - 2] == c;
    assert PlainArrival(g, end, q, start);
  }

  lemma Append(g: Graph, x: Rev, p: seq<Rev>, y: Rev, z: Rev)
    requires PathFrom(g, x, p, y) && z in Parents(g, y)
    ensures PathFrom(g, x, p + [z], z)
  {
    var q := p + [z];
    forall i | 0 <= i < |q| - 1 ensures q[i + 1] in Parents(g, q[i]) {
      if i < |p| - 1 { assert q[i] == p[i] && q[i + 1] == p[i + 1]; }
    }
  }

  lemma RepeatIsCycle(g: Graph, start: Rev, end: Rev, q: seq<Rev>, i: nat)
    requires PathFrom(g, end, q, start) && i < |q| - 1 && q[i] == start
    ensures ProperAncestor(g, start, start)
  {
    Suffix(g, end, q, start, i);
    assert PathFrom(g, start, q[i..], start) && |q[i..]| > 1;
  }

  lemma NoRepeat(g: Graph, start: Rev, end: Rev, q: seq<Rev>)
    requires Acyclic(g) && PathFrom(g, end, q, start)
    ensures start !in q[..|q| - 1]
  {
    if start in q[..|q| - 1] {
      var i: nat :| i < |q| - 1 && q[..|q| - 1][i] == start;
      RepeatIsCycle(g, start, end, q, i);
    }
  }

  // ... so it agrees with descent if and only if an ancestor is some revision's only parent on the way.
  lemma AcyclicExactness(g: Graph, start: Rev, end: Rev)
    requires Acyclic(g)
    ensures (Found(g, start, end) <==> ProperAncestor(g, start, end))
            <==> (ProperAncestor(g, start, end) ==> PlainChildBelow(g, start, end))
  {
    AcyclicAnswer(g, start, end);
    if Found(g, start, end) { FoundIsAncestor(g, start, end); }
  }

  // The parents of a merge come out as No although the merge descends from both.
  lemma MergeParentMissed()
    ensures var g: Graph := map["m" := Merge(["a", "b"]), "a" := One("r"), "b" := One("r"), "r" := Root];
            && ProperAncestor(g, "a", "m") && Answers(g, Some("a"), Some("m"), No)
            && ProperAncestor(g, "r", "m") && Answers(g, Some("r"), Some("m"), Yes)
  {
    var g: Graph := map["m" := Merge(["a", "b"]), "a" := One("r"), "b" := One("r"), "r" := Root];
    assert PathFrom(g, "m", ["m", "a"], "a");
    assert PathFrom(g, "m", ["m", "a", "r"], "r");
    RootHasNoWay(g, "a", "r");
    if HasWay(g, "a", "b") { OnlyWay(g, "a", "b", "r"); }
    assert NoneBefore(g, "a", ["a", "b"], 2);
    NoWayThroughMerge(g, "a", "m");
    assert ["m", "a", "r"][1..] == ["a", "r"] && NoneBefore(g, "r", ["a", "b"], 0);
    assert FirstWay(g, "r", ["a", "r"]);
    assert FirstWay(g, "r", ["m", "a", "r"]);
  }
}
