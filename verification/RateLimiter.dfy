// RedisRateLimiter: one atomic trim/count/add/expire pipeline on a sorted set, and a separate
// removal for rejected callers.
module RateLimiter {
  import opened Wrappers
  import opened Sets

  type Time = real
  type Member = nat

  // One key: its sorted set (member to score) and when the server drops it.
  datatype Key = Key(zset: map<Member, Time>, expireAt: Option<Time>)

  datatype Config = Config(capacity: nat, windowSeconds: nat, failClosed: bool)

  // `now` is the caller's time.time() before the round trip, `clock` the server's time on execution.
  datatype Stamp = Stamp(now: Time, clock: Time)

  function Window(c: Config): Time { c.windowSeconds as real }

  const FRESH := Key(map[], None)

  // ZREMRANGEBYSCORE key 0 windowStart
  function Trim(z: map<Member, Time>, windowStart: Time): map<Member, Time> {
    map m | m in z && !(0.0 <= z[m] <= windowStart) :: z[m]
  }

  // What the server sees of the key at its own time `clock`. A key goes strictly after its expiry.
  function Live(k: Key, clock: Time): map<Member, Time> {
    if k.expireAt.Some? && clock > k.expireAt.value then map[] else k.zset
  }

  function Trimmed(c: Config, k: Key, at: Stamp): map<Member, Time> { Trim(Live(k, at.clock), at.now - Window(c)) }

  // MULTI ... EXEC: the new key, and the count taken between trim and add.
  function Pipeline(c: Config, k: Key, member: Member, at: Stamp): (Key, nat) {
    var trimmed := Trimmed(c, k, at);
    (Key(trimmed[member := at.now], Some(at.clock + Window(c))), |trimmed|)
  }

  function Remove(k: Key, member: Member): Key { k.(zset := k.zset - {member}) }

  // --- Many callers, step by step ---

  datatype Call = Call(now: Time, admitted: bool)

  // Every call made so far by its member, the rejected ones still to be removed, and the last
  // pipeline's two times.
  datatype System = System(key: Key, calls: map<Member, Call>, rejected: set<Member>, last: Option<Stamp>)

  const START := System(FRESH, map[], {}, None)

  datatype Step =
    | Execute(member: Member, at: Stamp)  // pipeline run, reply delivered
    | Lost(member: Member, at: Stamp)     // pipeline run, RedisError instead of a reply
    | Unsent(member: Member, now: Time)   // RedisError before the pipeline ran
    | RemoveRejected(member: Member)      // zrem done
    | RemoveFailed(member: Member)        // RedisError before zrem
    | RemoveLost(member: Member)          // zrem done, RedisError instead of a reply

  function Forgiven(c: Config, s: System, m: Member): System
    requires m in s.calls
  {
    s.(rejected := s.rejected - {m}, calls := s.calls[m := s.calls[m].(admitted := !c.failClosed)])
  }

  // On a RedisError the caller is refused when failing closed and let through otherwise.
  function Apply(c: Config, s: System, step: Step): System {
    match step
    case Execute(m, at) =>
      var (k, count) := Pipeline(c, s.key, m, at);
      var ok := count < c.capacity;
      System(k, s.calls[m := Call(at.now, ok)], if ok then s.rejected else s.rejected + {m}, Some(at))
    case Lost(m, at) =>
      System(Pipeline(c, s.key, m, at).0, s.calls[m := Call(at.now, !c.failClosed)], s.rejected, Some(at))
    case Unsent(m, now) => s.(calls := s.calls[m := Call(now, !c.failClosed)])
    case RemoveRejected(m) =>
      if m !in s.rejected then s else s.(key := Remove(s.key, m), rejected := s.rejected - {m})
    case RemoveFailed(m) => if m !in s.rejected || m !in s.calls then s else Forgiven(c, s, m)
    case RemoveLost(m) => if m !in s.rejected || m !in s.calls then s else Forgiven(c, s, m).(key := Remove(s.key, m))
  }

  // The server's clock does not run backwards. Callers may overtake one another on the way there.
  predicate InOrder(last: Option<Stamp>, at: Stamp) { last.Some? ==> at.clock >= last.value.clock }

  // Members are fresh UUIDs.
  predicate Enabled(s: System, step: Step) {
    match step
    case Execute(m, at) => m !in s.calls && InOrder(s.last, at)
    case Lost(m, at) => m !in s.calls && InOrder(s.last, at)
    case Unsent(m, now) => m !in s.calls
    case _ => true
  }

  ghost predicate Execution(c: Config, states: seq<System>, steps: seq<Step>) {
    && |states| == |steps| + 1
    && states[0] == START
    && forall i :: 0 <= i < |steps| ==> Enabled(states[i], steps[i]) && states[i + 1] == Apply(c, states[i], steps[i])
  }

  // How far the server's clock is ahead of the stamp when a pipeline executes: `offset` between the
  // two clocks, and at most `spread` on top for the way there.
  datatype Lag = Lag(offset: Time, spread: Time)

  predicate Within(lag: Lag, at: Stamp) { lag.offset <= at.clock - at.now <= lag.offset + lag.spread }

  predicate StepWithin(lag: Lag, step: Step) { step.Execute? || step.Lost? ==> Within(lag, step.at) }

  ghost predicate Lagged(lag: Lag, steps: seq<Step>) { forall k :: 0 <= k < |steps| ==> StepWithin(lag, steps[k]) }

  // The admitted calls with timestamps in (t - w, t].
  ghost function AdmittedIn(calls: map<Member, Call>, w: Time, t: Time): set<Member> {
    set m | m in calls && calls[m].admitted && t - w < calls[m].now <= t
  }

  ghost predicate Bounded(c: Config, calls: map<Member, Call>, w: Time) {
    forall t :: |AdmittedIn(calls, w, t)| <= c.capacity
  }

  // Entries carry their call's timestamp, and an admitted call without one is a window older than
  // the server's clock, as far as stamps can tell.
  ghost predicate Entries(c: Config, lag: Lag, s: System) {
    && (forall m :: m in s.key.zset ==> m in s.calls && s.key.zset[m] == s.calls[m].now)
    && (forall m :: m in s.calls && s.calls[m].admitted ==>
          s.last.Some? && s.calls[m].now <= s.last.value.clock - lag.offset)
    && (forall m :: m in s.calls && s.calls[m].admitted && m !in s.key.zset ==>
          s.calls[m].now <= s.last.value.clock - lag.offset - Window(c))
    && (forall m :: m in s.rejected ==> m in s.calls && !s.calls[m].admitted)
    && s.key.expireAt == (if s.last.Some? then Some(s.last.value.clock + Window(c)) else None)
    && (s.last.None? ==> s.key.zset == map[])
    && (s.last.Some? ==> Within(lag, s.last.value))
  }

  ghost predicate Inv(c: Config, lag: Lag, w: Time, s: System) { Entries(c, lag, s) && Bounded(c, s.calls, w) }

  // Every admitted call that shares a shortened window with a new one is counted, expired key or not.
  lemma AdmittedAreCounted(c: Config, lag: Lag, w: Time, s: System, at: Stamp, t: Time)
    requires Entries(c, lag, s) && InOrder(s.last, at) && Within(lag, at) && w <= Window(c) - lag.spread && t >= at.now
    ensures |AdmittedIn(s.calls, w, t)| <= |Trimmed(c, s.key, at)|
  {
    var trimmed := Trimmed(c, s.key, at);
    assert AdmittedIn(s.calls, w, t) <= trimmed.Keys;
    hide Entries, AdmittedIn, Trimmed;
    SubsetSize(AdmittedIn(s.calls, w, t), trimmed.Keys);
    assert |trimmed.Keys| == |trimmed|;
  }

  lemma WindowAfterAdmit(calls: map<Member, Call>, w: Time, m: Member, now: Time, t: Time)
    requires m !in calls
    ensures t < now ==> AdmittedIn(calls[m := Call(now, true)], w, t) == AdmittedIn(calls, w, t)
    ensures AdmittedIn(calls[m := Call(now, true)], w, t) <= AdmittedIn(calls, w, t) + {m}
  {
  }

  lemma AdmittingKeepsBound(c: Config, calls: map<Member, Call>, w: Time, m: Member, now: Time)
    requires Bounded(c, calls, w) && m !in calls
    requires forall t :: t >= now ==> |AdmittedIn(calls, w, t)| < c.capacity
    ensures Bounded(c, calls[m := Call(now, true)], w)
  {
    hide AdmittedIn;
    var calls' := calls[m := Call(now, true)];
    forall t ensures |AdmittedIn(calls', w, t)| <= c.capacity {
      WindowAfterAdmit(calls, w, m, now, t);
      if t >= now {
        SubsetSize(AdmittedIn(calls', w, t), AdmittedIn(calls, w, t) + {m});
      }
    }
  }

  lemma RefusingKeepsBound(c: Config, calls: map<Member, Call>, w: Time, m: Member, now: Time)
    requires Bounded(c, calls, w) && (m in calls ==> !calls[m].admitted)
    ensures Bounded(c, calls[m := Call(now, false)], w)
  {
    var calls' := calls[m := Call(now, false)];
    forall t ensures |AdmittedIn(calls', w, t)| <= c.capacity {
      assert AdmittedIn(calls', w, t) == AdmittedIn(calls, w, t);
    }
  }

  // The pipeline keeps the entries right, whatever becomes of its caller.
  lemma PipelineKeepsEntries(c: Config, lag: Lag, s: System, m: Member, at: Stamp, admitted: bool, rejected: set<Member>)
    requires Entries(c, lag, s) && m !in s.calls && InOrder(s.last, at) && Within(lag, at)
    requires rejected == s.rejected || (!admitted && rejected == s.rejected + {m})
    ensures Entries(c, lag, System(Pipeline(c, s.key, m, at).0, s.calls[m := Call(at.now, admitted)], rejected, Some(at)))
  {
  }

  lemma RemovalKeepsEntries(c: Config, lag: Lag, s: System, step: Step)
    requires c.failClosed && Entries(c, lag, s) && !step.Execute? && !step.Lost? && Enabled(s, step)
    ensures Entries(c, lag, Apply(c, s, step))
  {
  }

  lemma RejectedOf(c: Config, lag: Lag, s: System)
    requires Entries(c, lag, s)
    ensures forall k :: k in s.rejected ==> k in s.calls && !s.calls[k].admitted
  {
  }

  lemma InvStep(c: Config, lag: Lag, w: Time, s: System, step: Step)
    requires c.failClosed && w <= Window(c) - lag.spread
    requires Inv(c, lag, w, s) && Enabled(s, step) && StepWithin(lag, step)
    ensures Inv(c, lag, w, Apply(c, s, step))
  {
    hide Bounded, Entries, Pipeline, Trimmed, Window, AdmittedIn, Within;
    RejectedOf(c, lag, s);
    match step
    case Execute(m, at) =>
      forall t | t >= at.now ensures |AdmittedIn(s.calls, w, t)| <= |Trimmed(c, s.key, at)| { AdmittedAreCounted(c, lag, w, s, at, t); }
      CountOf(c, s.key, m, at);
      var ok := |Trimmed(c, s.key, at)| < c.capacity;
      if ok { AdmittingKeepsBound(c, s.calls, w, m, at.now); } else { RefusingKeepsBound(c, s.calls, w, m, at.now); }
      PipelineKeepsEntries(c, lag, s, m, at, ok, if ok then s.rejected else s.rejected + {m});
    case Lost(m, at) =>
      RefusingKeepsBound(c, s.calls, w, m, at.now);
      PipelineKeepsEntries(c, lag, s, m, at, false, s.rejected);
    case Unsent(m, now) =>
      RefusingKeepsBound(c, s.calls, w, m, now);
      RemovalKeepsEntries(c, lag, s, step);
    case RemoveRejected(m) => RemovalKeepsEntries(c, lag, s, step);
    case RemoveFailed(m) =>
      RemovalKeepsEntries(c, lag, s, step);
      if m in s.rejected { RefusingKeepsBound(c, s.calls, w, m, s.calls[m].now); }
    case RemoveLost(m) =>
      RemovalKeepsEntries(c, lag, s, step);
      if m in s.rejected { RefusingKeepsBound(c, s.calls, w, m, s.calls[m].now); }
  }

  lemma CountOf(c: Config, k: Key, m: Member, at: Stamp)
    ensures Pipeline(c, k, m, at).1 == |Trimmed(c, k, at)|
  {
  }

  lemma {:induction false} ReachableInv(c: Config, lag: Lag, w: Time, states: seq<System>, steps: seq<Step>, i: nat)
    requires c.failClosed && w <= Window(c) - lag.spread
    requires Execution(c, states, steps) && Lagged(lag, steps) && i < |states|
    ensures Inv(c, lag, w, states[i])
    decreases i
  {
    if i == 0 {
      assert forall t :: AdmittedIn(START.calls, w, t) == {};
    } else {
      hide Inv, Enabled, Apply, StepWithin, Window;
      ReachableInv(c, lag, w, states, steps, i - 1);
      assert StepWithin(lag, steps[i - 1]);
      InvStep(c, lag, w, states[i - 1], steps[i - 1]);
      assert states[i - 1 + 1] == Apply(c, states[i - 1], steps[i - 1]);
    }
  }

  // Main result: in any interleaving of callers that fail closed, whatever Redis errors occur and
  // whether the key expires or not, at most `capacity` admitted calls have timestamps in (t - w, t],
  // for every t and every w up to the window less the spread of the lag. A caller that stamps with
  // the server's time has no spread and the whole window.
  lemma AtMostCapacity(c: Config, lag: Lag, w: Time, states: seq<System>, steps: seq<Step>, i: nat, t: Time)
    requires c.failClosed && w <= Window(c) - lag.spread
    requires Execution(c, states, steps) && Lagged(lag, steps) && i < |states|
    ensures |AdmittedIn(states[i].calls, w, t)| <= c.capacity
  {
    ReachableInv(c, lag, w, states, steps, i);
  }

  // --- No more can be said ---

  ghost predicate Exceeds(c: Config, lag: Lag, w: Time, states: seq<System>, steps: seq<Step>, t: Time) {
    && Execution(c, states, steps) && Lagged(lag, steps)
    && |AdmittedIn(states[|steps|].calls, w, t)| > c.capacity
  }

  // Main result: no execution with such a lag ever admits more than `capacity` calls in (t - w, t] if
  // and only if callers fail closed and w is at most the window less the spread.
  lemma BoundIff(c: Config, lag: Lag, w: Time)
    requires c.capacity > 0 && c.windowSeconds > 0 && lag.spread >= 0.0
    ensures w <= 0.0 || (c.failClosed && w <= Window(c) - lag.spread) <==>
            !exists states, steps, t :: Exceeds(c, lag, w, states, steps, t)
  {
    hide Exceeds, Window;
    if w <= 0.0 || (c.failClosed && w <= Window(c) - lag.spread) {
      forall states, steps, t ensures !Exceeds(c, lag, w, states, steps, t) { WithinBound(c, lag, w, states, steps, t); }
    } else if !c.failClosed {
      var states, steps := Flood(c, lag, w);
    } else {
      WindowPositive(c);
      var late := if lag.spread < Window(c) then lag.spread else Window(c);
      var states, steps := LateArrivalExceeds(c, lag, w, late);
    }
  }

  lemma WindowPositive(c: Config)
    requires c.windowSeconds > 0
    ensures Window(c) > 0.0
  {
  }

  lemma WithinBound(c: Config, lag: Lag, w: Time, states: seq<System>, steps: seq<Step>, t: Time)
    requires w <= 0.0 || (c.failClosed && w <= Window(c) - lag.spread)
    ensures !Exceeds(c, lag, w, states, steps, t)
  {
    if Execution(c, states, steps) && Lagged(lag, steps) {
      if w <= 0.0 {
        assert AdmittedIn(states[|steps|].calls, w, t) == {};
      } else {
        AtMostCapacity(c, lag, w, states, steps, |steps|, t);
      }
    }
  }

  function UpTo(n: nat): (r: set<Member>)
    ensures |r| == n && forall m: Member :: m in r <==> m < n
  {
    if n == 0 then {} else UpTo(n - 1) + {n - 1}
  }

  function Admissions(n: nat, now: Time): (r: map<Member, Call>)
    ensures r.Keys == UpTo(n) && forall m :: m in r ==> r[m] == Call(now, true)
  {
    if n == 0 then map[] else Admissions(n - 1, now)[n - 1 := Call(now, true)]
  }

  // n calls whose pipelines never ran, all let through.
  function Flooded(n: nat): System { START.(calls := Admissions(n, 5.0)) }

  lemma Flood(c: Config, lag: Lag, w: Time) returns (states: seq<System>, steps: seq<Step>)
    requires !c.failClosed && w > 0.0
    ensures Exceeds(c, lag, w, states, steps, 5.0)
  {
    hide *;
    var n := c.capacity + 1;
    states, steps := seq(n + 1, (i: nat) => Flooded(i)), seq(n, (i: nat) => Unsent(i, 5.0));
    FloodRuns(c, states, steps);
    FloodAdmits(w, n);
    FloodExceeds(c, lag, w, states, steps);
  }

  lemma FloodRuns(c: Config, states: seq<System>, steps: seq<Step>)
    requires !c.failClosed && |states| == |steps| + 1
    requires forall i: nat :: i < |states| ==> states[i] == Flooded(i)
    requires forall i: nat :: i < |steps| ==> steps[i] == Unsent(i, 5.0)
    ensures Execution(c, states, steps)
  {
    EmptyFlood();
    hide Flooded, Apply, Enabled;
    forall i: nat | i < |steps| ensures Enabled(states[i], steps[i]) && states[i + 1] == Apply(c, states[i], steps[i]) {
      FloodStep(c, i);
    }
  }

  lemma FloodExceeds(c: Config, lag: Lag, w: Time, states: seq<System>, steps: seq<Step>)
    requires Execution(c, states, steps) && |AdmittedIn(states[|steps|].calls, w, 5.0)| > c.capacity
    requires forall i: nat :: i < |steps| ==> steps[i].Unsent?
    ensures Exceeds(c, lag, w, states, steps, 5.0)
  {
    hide Execution, AdmittedIn;
  }

  lemma EmptyFlood()
    ensures Flooded(0) == START
  {
  }

  lemma FloodAdmits(w: Time, n: nat)
    requires w > 0.0
    ensures AdmittedIn(Flooded(n).calls, w, 5.0) == UpTo(n)
  {
  }

  lemma FloodStep(c: Config, i: nat)
    requires !c.failClosed
    ensures Enabled(Flooded(i), Unsent(i, 5.0)) && Flooded(i + 1) == Apply(c, Flooded(i), Unsent(i, 5.0))
  {
  }

  // The stamp of calls made at time zero.
  function Early(lag: Lag): Stamp { Stamp(0.0, lag.offset) }

  function Zeros(n: nat): (r: map<Member, Time>)
    ensures r.Keys == UpTo(n) && forall m :: m in r ==> r[m] == 0.0
  {
    if n == 0 then map[] else Zeros(n - 1)[n - 1 := 0.0]
  }

  // n calls made and admitted at time zero.
  function Filled(c: Config, lag: Lag, n: nat): System {
    System(Key(Zeros(n), if n == 0 then None else Some(lag.offset + Window(c))),
           Admissions(n, 0.0), {}, if n == 0 then None else Some(Early(lag)))
  }

  // Half of what a window of length w is too long for a call that is `late` on its way.
  function Margin(c: Config, w: Time, late: Time): Time { (w - (Window(c) - late)) / 2.0 }

  // Such a call, executed when the key of the earlier ones has just expired.
  function Late(c: Config, lag: Lag, w: Time, late: Time): Stamp {
    Stamp(Window(c) - late + Margin(c, w, late), lag.offset + Window(c) + Margin(c, w, late))
  }

  // Any lag that is possible at all does it: the late call is admitted beside the `capacity` earlier
  // ones, which the expiry dropped although they lie in (t - w, t].
  lemma LateArrivalExceeds(c: Config, lag: Lag, w: Time, late: Time) returns (states: seq<System>, steps: seq<Step>)
    requires c.capacity > 0 && c.windowSeconds > 0
    requires 0.0 <= late <= lag.spread && late <= Window(c) && w > 0.0 && w > Window(c) - late
    ensures |steps| == c.capacity + 1
    ensures Exceeds(c, lag, w, states, steps, Late(c, lag, w, late).now)
  {
    hide Filled, Late, Early, Apply, Enabled, StepWithin, AdmittedIn, Window;
    var n := c.capacity;
    states := seq(n + 1, (i: nat) => Filled(c, lag, i)) + [Apply(c, Filled(c, lag, n), Execute(n, Late(c, lag, w, late)))];
    steps := seq(n, (i: nat) => Execute(i, Early(lag))) + [Execute(n, Late(c, lag, w, late))];
    LateStep(c, lag, w, late);
    EmptyStart(c, lag);
    forall i: nat | i < |steps|
      ensures Enabled(states[i], steps[i]) && states[i + 1] == Apply(c, states[i], steps[i]) && StepWithin(lag, steps[i])
    {
      if i < n { FillStep(c, lag, i); }
    }
  }

  lemma EmptyStart(c: Config, lag: Lag)
    ensures Filled(c, lag, 0) == START
  {
  }

  lemma FillStep(c: Config, lag: Lag, i: nat)
    requires i < c.capacity && c.windowSeconds > 0 && lag.spread >= 0.0
    ensures var s, step := Filled(c, lag, i), Execute(i, Early(lag));
            Enabled(s, step) && StepWithin(lag, step) && Filled(c, lag, i + 1) == Apply(c, s, step)
  {
    hide Trimmed, Window, Zeros, Admissions, UpTo;
    NothingTrimmed(c, lag, i);
    FilledNext(c, lag, i);
  }

  lemma FilledNext(c: Config, lag: Lag, i: nat)
    ensures Filled(c, lag, i + 1) ==
            System(Key(Filled(c, lag, i).key.zset[i := 0.0], Some(lag.offset + Window(c))),
                   Filled(c, lag, i).calls[i := Call(0.0, true)], {}, Some(Early(lag)))
  {
  }

  lemma NothingTrimmed(c: Config, lag: Lag, i: nat)
    requires c.windowSeconds > 0
    ensures Trimmed(c, Filled(c, lag, i).key, Early(lag)) == Filled(c, lag, i).key.zset
    ensures |Filled(c, lag, i).key.zset| == i
  {
    assert |Zeros(i).Keys| == |Zeros(i)|;
  }

  lemma LateStep(c: Config, lag: Lag, w: Time, late: Time)
    requires c.capacity > 0 && c.windowSeconds > 0
    requires 0.0 <= late <= lag.spread && late <= Window(c) && w > 0.0 && w > Window(c) - late
    ensures var s, step := Filled(c, lag, c.capacity), Execute(c.capacity, Late(c, lag, w, late));
            && Enabled(s, step) && StepWithin(lag, step)
            && AdmittedIn(Apply(c, s, step).calls, w, step.at.now) == UpTo(c.capacity + 1)
  {
    AllDropped(c, lag, w, late);
    hide Trimmed;
  }

  lemma AllDropped(c: Config, lag: Lag, w: Time, late: Time)
    requires c.capacity > 0 && w > Window(c) - late
    ensures Trimmed(c, Filled(c, lag, c.capacity).key, Late(c, lag, w, late)) == map[]
  {
  }

  // --- One caller at a time ---

  datatype Outcome = Allowed | Refused | Unavailable

  // What goes wrong with one round trip: nothing, an error before it reaches the server, or an error
  // instead of the reply.
  datatype Fault = Fine | NotSent | ReplyLost

  function OnError(c: Config): Outcome { if c.failClosed then Unavailable else Allowed }

  function CheckStep(c: Config, k: Key, member: Member, at: Stamp, pipeline: Fault, removal: Fault): (Key, Outcome) {
    if pipeline.NotSent? then (k, OnError(c))
    else
      var (k', count) := Pipeline(c, k, member, at);
      if pipeline.ReplyLost? then (k', OnError(c))
      else if count < c.capacity then (k', Allowed)
      else if removal.NotSent? then (k', OnError(c))
      else (Remove(k', member), if removal.ReplyLost? then OnError(c) else Refused)
  }

  class RedisRateLimiter {
    var key: Key

    constructor ()
      ensures key == FRESH
    {
      key := FRESH;
    }

    // `check` for one key, with what becomes of its two round trips.
    method Check(c: Config, member: Member, at: Stamp, pipeline: Fault, removal: Fault) returns (r: Outcome)
      modifies this
      ensures (key, r) == CheckStep(c, old(key), member, at, pipeline, removal)
    {
      if pipeline.NotSent? { return OnError(c); }
      var (k, count) := Pipeline(c, key, member, at);
      key := k;
      if pipeline.ReplyLost? { return OnError(c); }
      if count >= c.capacity {
        if removal.NotSent? { return OnError(c); }
        key := Remove(key, member);
        return if removal.ReplyLost? then OnError(c) else Refused;
      }
      return Allowed;
    }
  }

  // Main result: a check is unavailable exactly when callers fail closed and a round trip it made went wrong,
  // and refused exactly when none did and the window was full; else the caller is let through.
  lemma CheckAnswers(c: Config, k: Key, member: Member, at: Stamp, pipeline: Fault, removal: Fault)
    ensures var (k', r) := CheckStep(c, k, member, at, pipeline, removal);
            var full := |Trimmed(c, k, at)| >= c.capacity;
            var wrong := !pipeline.Fine? || (full && !removal.Fine?);
            && (r == Unavailable <==> c.failClosed && wrong)
            && (r == Refused <==> !wrong && full)
            && (r == Allowed <==> if wrong then !c.failClosed else !full)
            && (pipeline.NotSent? ==> k' == k)
  {
    hide Trimmed;
  }

  // The steps one check takes among those of other callers.
  function StepsOf(c: Config, s: System, m: Member, at: Stamp, pipeline: Fault, removal: Fault): seq<Step> {
    if pipeline.NotSent? then [Unsent(m, at.now)]
    else if pipeline.ReplyLost? then [Lost(m, at)]
    else
      [Execute(m, at)] +
      if Pipeline(c, s.key, m, at).1 < c.capacity then []
      else [if removal.NotSent? then RemoveFailed(m) else if removal.ReplyLost? then RemoveLost(m) else RemoveRejected(m)]
  }

  function RunSteps(c: Config, s: System, steps: seq<Step>): System
    decreases |steps|
  {
    if steps == [] then s else RunSteps(c, Apply(c, s, steps[0]), steps[1..])
  }

  // A check that meets no other is what `check` computes: the same key, and the call counts as admitted
  // exactly when the caller is let through.
  lemma CheckIsSteps(c: Config, s: System, m: Member, at: Stamp, pipeline: Fault, removal: Fault)
    requires m !in s.calls && m !in s.rejected
    ensures var (k, r) := CheckStep(c, s.key, m, at, pipeline, removal);
            var s' := RunSteps(c, s, StepsOf(c, s, m, at, pipeline, removal));
            && s'.key == k && s'.calls == s.calls[m := Call(at.now, r == Allowed)]
            && s'.rejected == s.rejected
  {
    hide Pipeline;
    var steps := StepsOf(c, s, m, at, pipeline, removal);
    var s1 := Apply(c, s, steps[0]);
    if |steps| == 1 {
      assert steps[1..] == [];
    } else {
      var s2 := Apply(c, s1, steps[1]);
      assert steps[1..] == [steps[1]] && [steps[1]][1..] == [];
      assert RunSteps(c, s1, steps[1..]) == RunSteps(c, s2, []) == s2;
      assert s1.rejected - {m} == s.rejected;
      assert s.calls[m := Call(at.now, false)][m := Call(at.now, !c.failClosed)] == s.calls[m := Call(at.now, !c.failClosed)];
    }
  }

  // The specification: remember every admitted call; admit when fewer than `capacity` of them lie
  // in (now - w, now].
  ghost predicate SpecAdmits(c: Config, admitted: map<Member, Time>, w: Time, now: Time) {
    |InWindow(admitted, w, now)| < c.capacity
  }

  ghost function InWindow(admitted: map<Member, Time>, w: Time, now: Time): set<Member> {
    set m | m in admitted && now - w < admitted[m] <= now
  }

  // Calls made one after the other are stamped in order as well.
  predicate OneByOne(last: Option<Stamp>, at: Stamp) {
    at.now >= 0.0 && InOrder(last, at) && (last.Some? ==> at.now >= last.value.now)
  }

  // The stored set holds admitted calls of the window only, and all of those that expiry cannot have
  // dropped.
  ghost predicate Represents(c: Config, lag: Lag, k: Key, admitted: map<Member, Time>, last: Option<Stamp>) {
    && (forall m :: m in admitted ==> last.Some? && 0.0 <= admitted[m] <= last.value.now)
    && (forall m :: m in k.zset ==>
          m in admitted && k.zset[m] == admitted[m] && admitted[m] > last.value.now - Window(c))
    && (forall m :: m in admitted && admitted[m] > last.value.clock - lag.offset - Window(c) ==> m in k.zset)
    && k.expireAt == (if last.Some? then Some(last.value.clock + Window(c)) else None)
    && (last.Some? ==> Within(lag, last.value))
  }

  datatype Arrival = Arrival(member: Member, at: Stamp)

  function Checked(c: Config, k: Key, a: Arrival): (Key, Outcome) { CheckStep(c, k, a.member, a.at, Fine, Fine) }

  function Remembered(admitted: map<Member, Time>, a: Arrival, ok: bool): map<Member, Time> {
    if ok then admitted[a.member := a.at.now] else admitted
  }

  lemma TrimmedBounds(c: Config, lag: Lag, k: Key, admitted: map<Member, Time>, last: Option<Stamp>, at: Stamp)
    requires lag.spread >= 0.0 && Represents(c, lag, k, admitted, last) && OneByOne(last, at) && Within(lag, at)
    ensures InWindow(admitted, Window(c) - lag.spread, at.now) <= Trimmed(c, k, at).Keys <= InWindow(admitted, Window(c), at.now)
  {
  }

  lemma TrimmedRepresents(c: Config, lag: Lag, k: Key, admitted: map<Member, Time>, last: Option<Stamp>, at: Stamp)
    requires Represents(c, lag, k, admitted, last) && OneByOne(last, at) && Within(lag, at)
    ensures Represents(c, lag, Key(Trimmed(c, k, at), Some(at.clock + Window(c))), admitted, Some(at))
  {
  }

  lemma AddedRepresents(c: Config, lag: Lag, k: Key, admitted: map<Member, Time>, m: Member, at: Stamp)
    requires c.windowSeconds > 0 && at.now >= 0.0 && m !in admitted && Represents(c, lag, k, admitted, Some(at))
    ensures Represents(c, lag, k.(zset := k.zset[m := at.now]), admitted[m := at.now], Some(at))
  {
  }

  lemma CheckCases(c: Config, k: Key, a: Arrival)
    requires a.member !in Trimmed(c, k, a.at)
    ensures var w := Trimmed(c, k, a.at);
            Checked(c, k, a) == if |w| >= c.capacity then (Key(w, Some(a.at.clock + Window(c))), Refused)
                                else (Key(w[a.member := a.at.now], Some(a.at.clock + Window(c))), Allowed)
  {
    hide Trimmed;
    var w := Trimmed(c, k, a.at);
    assert w[a.member := a.at.now] - {a.member} == w;
  }

  // One check: refused only when `capacity` admitted calls lie in the window, admitted only when fewer
  // lie in the window less the spread; with no spread that decides. A refused call leaves no entry.
  lemma CheckRefines(c: Config, lag: Lag, k: Key, admitted: map<Member, Time>, last: Option<Stamp>, a: Arrival)
    requires c.windowSeconds > 0 && lag.spread >= 0.0
    requires Represents(c, lag, k, admitted, last) && OneByOne(last, a.at) && Within(lag, a.at) && a.member !in admitted
    ensures var (k', r) := Checked(c, k, a);
            && (r == Refused || r == Allowed)
            && (r == Refused ==> !SpecAdmits(c, admitted, Window(c), a.at.now))
            && (r == Allowed ==> SpecAdmits(c, admitted, Window(c) - lag.spread, a.at.now))
            && Represents(c, lag, k', Remembered(admitted, a, r == Allowed), Some(a.at))
  {
    hide Trimmed, Represents, CheckStep, InWindow, Window, Within;
    TrimmedBounds(c, lag, k, admitted, last, a.at);
    TrimmedRepresents(c, lag, k, admitted, last, a.at);
    WindowMembers(admitted, Window(c), a.at.now);
    var w := Trimmed(c, k, a.at);
    assert |w.Keys| == |w|;
    SubsetSize(w.Keys, InWindow(admitted, Window(c), a.at.now));
    SubsetSize(InWindow(admitted, Window(c) - lag.spread, a.at.now), w.Keys);
    CheckCases(c, k, a);
    if |w| < c.capacity { AddedRepresents(c, lag, Key(w, Some(a.at.clock + Window(c))), admitted, a.member, a.at); }
  }

  lemma WindowMembers(admitted: map<Member, Time>, w: Time, now: Time)
    ensures InWindow(admitted, w, now) <= admitted.Keys
  {
  }

  // The limiter's decisions on a list of calls made one after the other.
  function Decisions(c: Config, k: Key, calls: seq<Arrival>): seq<bool>
    decreases |calls|
  {
    if calls == [] then []
    else
      var (k', r) := Checked(c, k, calls[0]);
      [r == Allowed] + Decisions(c, k', calls[1..])
  }

  ghost function SpecDecisions(c: Config, admitted: map<Member, Time>, calls: seq<Arrival>): seq<bool>
    decreases |calls|
  {
    if calls == [] then []
    else
      var ok := SpecAdmits(c, admitted, Window(c), calls[0].at.now);
      [ok] + SpecDecisions(c, Remembered(admitted, calls[0], ok), calls[1..])
  }

  // Every decision lies between the specification for the window and for the window less `spread`, on
  // the calls admitted so far.
  ghost predicate Between(c: Config, spread: Time, admitted: map<Member, Time>, calls: seq<Arrival>, decisions: seq<bool>)
    requires |decisions| == |calls|
    decreases |calls|
  {
    calls != [] ==>
      && (!decisions[0] ==> !SpecAdmits(c, admitted, Window(c), calls[0].at.now))
      && (decisions[0] ==> SpecAdmits(c, admitted, Window(c) - spread, calls[0].at.now))
      && Between(c, spread, Remembered(admitted, calls[0], decisions[0]), calls[1..], decisions[1..])
  }

  // One call after the other: clocks in order, the lag within bounds, members fresh.
  ghost predicate Sequential(lag: Lag, admitted: map<Member, Time>, last: Option<Stamp>, calls: seq<Arrival>) {
    && (forall i :: 0 <= i < |calls| ==> Within(lag, calls[i].at) && calls[i].member !in admitted)
    && (forall i, j :: 0 <= i < j < |calls| ==> calls[i].member != calls[j].member && OneByOne(Some(calls[i].at), calls[j].at))
    && (forall i :: 0 <= i < |calls| ==> OneByOne(last, calls[i].at))
  }

  lemma SequentialRest(lag: Lag, admitted: map<Member, Time>, last: Option<Stamp>, calls: seq<Arrival>, ok: bool)
    requires calls != [] && Sequential(lag, admitted, last, calls)
    ensures Sequential(lag, Remembered(admitted, calls[0], ok), Some(calls[0].at), calls[1..])
  {
    hide Within, InOrder;
    var rest := calls[1..];
    forall i | 0 <= i < |rest| ensures rest[i] == calls[i + 1] { }
  }

  // Main result for sequential use, over every list of calls, with any lag.
  lemma {:induction false} SequentialBounds(c: Config, lag: Lag, k: Key, admitted: map<Member, Time>, last: Option<Stamp>, calls: seq<Arrival>)
    requires c.windowSeconds > 0 && lag.spread >= 0.0
    requires Represents(c, lag, k, admitted, last) && Sequential(lag, admitted, last, calls)
    ensures |Decisions(c, k, calls)| == |calls| && Between(c, lag.spread, admitted, calls, Decisions(c, k, calls))
    decreases |calls|
  {
    hide *;
    if calls == [] {
      NothingBetween(c, lag.spread, k, admitted);
    } else {
      var a := calls[0];
      SequentialFirst(lag, admitted, last, calls);
      CheckRefines(c, lag, k, admitted, last, a);
      var (k', r) := Checked(c, k, a);
      SequentialRest(lag, admitted, last, calls, r == Allowed);
      SequentialBounds(c, lag, k', Remembered(admitted, a, r == Allowed), Some(a.at), calls[1..]);
      OneBetween(c, lag.spread, k, admitted, calls);
    }
  }

  lemma SequentialFirst(lag: Lag, admitted: map<Member, Time>, last: Option<Stamp>, calls: seq<Arrival>)
    requires calls != [] && Sequential(lag, admitted, last, calls)
    ensures Within(lag, calls[0].at) && OneByOne(last, calls[0].at) && calls[0].member !in admitted
  {
  }

  lemma NothingBetween(c: Config, spread: Time, k: Key, admitted: map<Member, Time>)
    ensures Decisions(c, k, []) == [] && Between(c, spread, admitted, [], [])
  {
  }

  lemma OneBetween(c: Config, spread: Time, k: Key, admitted: map<Member, Time>, calls: seq<Arrival>)
    requires calls != []
    requires var (k', r) := Checked(c, k, calls[0]);
             && (r == Refused || r == Allowed)
             && (r == Refused ==> !SpecAdmits(c, admitted, Window(c), calls[0].at.now))
             && (r == Allowed ==> SpecAdmits(c, admitted, Window(c) - spread, calls[0].at.now))
             && |Decisions(c, k', calls[1..])| == |calls| - 1
             && Between(c, spread, Remembered(admitted, calls[0], r == Allowed), calls[1..], Decisions(c, k', calls[1..]))
    ensures |Decisions(c, k, calls)| == |calls| && Between(c, spread, admitted, calls, Decisions(c, k, calls))
  {
    hide CheckStep, SpecAdmits, Window;
    var (k', r) := Checked(c, k, calls[0]);
    assert Decisions(c, k, calls)[1..] == Decisions(c, k', calls[1..]);
  }

  // The key after the calls, and those the limiter admitted.
  function KeyAfter(c: Config, k: Key, calls: seq<Arrival>): Key
    decreases |calls|
  {
    if calls == [] then k else KeyAfter(c, Checked(c, k, calls[0]).0, calls[1..])
  }

  function AdmittedOf(admitted: map<Member, Time>, calls: seq<Arrival>, decisions: seq<bool>): map<Member, Time>
    requires |decisions| == |calls|
    decreases |calls|
  {
    if calls == [] then admitted else AdmittedOf(Remembered(admitted, calls[0], decisions[0]), calls[1..], decisions[1..])
  }

  lemma {:induction false} RunRepresents(c: Config, lag: Lag, k: Key, admitted: map<Member, Time>, last: Option<Stamp>, calls: seq<Arrival>)
    requires c.windowSeconds > 0 && lag.spread >= 0.0
    requires Represents(c, lag, k, admitted, last) && Sequential(lag, admitted, last, calls)
    ensures |Decisions(c, k, calls)| == |calls|
    ensures Represents(c, lag, KeyAfter(c, k, calls), AdmittedOf(admitted, calls, Decisions(c, k, calls)),
                       if calls == [] then last else Some(calls[|calls| - 1].at))
    decreases |calls|
  {
    hide Represents, Sequential, CheckStep, SpecAdmits, Window;
    if calls != [] {
      var a, rest := calls[0], calls[1..];
      SequentialFirst(lag, admitted, last, calls);
      CheckRefines(c, lag, k, admitted, last, a);
      var (k', r) := Checked(c, k, a);
      SequentialRest(lag, admitted, last, calls, r == Allowed);
      RunRepresents(c, lag, k', Remembered(admitted, a, r == Allowed), Some(a.at), rest);
      assert Decisions(c, k, calls)[1..] == Decisions(c, k', rest);
      if rest != [] { assert rest[|rest| - 1] == calls[|calls| - 1]; }
    }
  }

  // Main result: after any such list the stored set lies between the admitted calls of the window and
  // those of the window less the spread; with no spread it is exactly the admitted calls still in it.
  lemma SequentialEntries(c: Config, lag: Lag, calls: seq<Arrival>)
    requires c.windowSeconds > 0 && lag.spread >= 0.0 && calls != [] && Sequential(lag, map[], None, calls)
    ensures |Decisions(c, FRESH, calls)| == |calls|
    ensures var now, z := calls[|calls| - 1].at.now, KeyAfter(c, FRESH, calls).zset;
            var admitted := AdmittedOf(map[], calls, Decisions(c, FRESH, calls));
            && InWindow(admitted, Window(c) - lag.spread, now) <= z.Keys <= InWindow(admitted, Window(c), now)
            && (forall m :: m in z ==> z[m] == admitted[m])
            && (lag.spread == 0.0 ==> z == map m | m in InWindow(admitted, Window(c), now) :: admitted[m])
  {
    RunRepresents(c, lag, FRESH, map[], None, calls);
    EntriesBetween(c, lag, KeyAfter(c, FRESH, calls), AdmittedOf(map[], calls, Decisions(c, FRESH, calls)), calls[|calls| - 1].at);
    hide Represents, Sequential;
  }

  lemma EntriesBetween(c: Config, lag: Lag, k: Key, admitted: map<Member, Time>, last: Stamp)
    requires Represents(c, lag, k, admitted, Some(last))
    ensures InWindow(admitted, Window(c) - lag.spread, last.now) <= k.zset.Keys <= InWindow(admitted, Window(c), last.now)
    ensures forall m :: m in k.zset ==> m in admitted && k.zset[m] == admitted[m]
    ensures lag.spread == 0.0 ==> k.zset == map m | m in InWindow(admitted, Window(c), last.now) :: admitted[m]
  {
  }

  lemma {:induction false} BetweenIsSpec(c: Config, admitted: map<Member, Time>, calls: seq<Arrival>, decisions: seq<bool>)
    requires |decisions| == |calls| && Between(c, 0.0, admitted, calls, decisions)
    ensures decisions == SpecDecisions(c, admitted, calls)
    decreases |calls|
  {
    if calls != [] {
      hide SpecAdmits, Window;
      BetweenIsSpec(c, Remembered(admitted, calls[0], decisions[0]), calls[1..], decisions[1..]);
      assert decisions == [decisions[0]] + decisions[1..];
      assert Window(c) - 0.0 == Window(c);
    }
  }

  ghost predicate Differs(c: Config, lag: Lag, calls: seq<Arrival>) {
    Sequential(lag, map[], None, calls) && Decisions(c, FRESH, calls) != SpecDecisions(c, map[], calls)
  }

  // Main result: the limiter decides every list of calls as the specification does if and only if the
  // lag has no spread.
  lemma SequentialExactIff(c: Config, lag: Lag)
    requires c.capacity > 0 && c.windowSeconds > 0 && lag.spread >= 0.0
    ensures lag.spread == 0.0 <==> !exists calls :: Differs(c, lag, calls)
  {
    if lag.spread == 0.0 {
      forall calls ensures !Differs(c, lag, calls) {
        if Sequential(lag, map[], None, calls) {
          SequentialBounds(c, lag, FRESH, map[], None, calls);
          BetweenIsSpec(c, map[], calls, Decisions(c, FRESH, calls));
        }
      }
    } else {
      WindowPositive(c);
      var late := if lag.spread < Window(c) then lag.spread else Window(c);
      FromFilled(c, lag, late, 0);
      EmptyStart(c, lag);
      LateSequential(c, lag, late);
      assert Times(Filled(c, lag, 0)) == map[];
      assert Differs(c, lag, FilledThenLate(c, lag, late, 0));
    }
  }

  function Times(s: System): map<Member, Time> { map m | m in s.calls :: s.calls[m].now }

  // The calls from the i-th on: at time zero up to the capacity, then a late one.
  function FilledThenLate(c: Config, lag: Lag, late: Time, i: nat): seq<Arrival>
    decreases c.capacity - i
  {
    if i >= c.capacity then [Arrival(c.capacity, Late(c, lag, Window(c), late))]
    else [Arrival(i, Early(lag))] + FilledThenLate(c, lag, late, i + 1)
  }

  lemma {:induction false} FilledThenLateAt(c: Config, lag: Lag, late: Time, i: nat)
    requires i <= c.capacity
    ensures var calls := FilledThenLate(c, lag, late, i);
            && |calls| == c.capacity - i + 1
            && forall k :: 0 <= k < |calls| ==>
                 calls[k] == Arrival(i + k, if i + k < c.capacity then Early(lag) else Late(c, lag, Window(c), late))
    decreases c.capacity - i
  {
    if i < c.capacity { FilledThenLateAt(c, lag, late, i + 1); }
  }

  lemma LateSequential(c: Config, lag: Lag, late: Time)
    requires 0.0 <= late <= lag.spread && late <= Window(c)
    ensures Sequential(lag, map[], None, FilledThenLate(c, lag, late, 0))
  {
    FilledThenLateAt(c, lag, late, 0);
  }

  // With i of them made, the limiter admits all that follow and the specification refuses the last.
  lemma {:induction false} FromFilled(c: Config, lag: Lag, late: Time, i: nat)
    requires i <= c.capacity && c.capacity > 0 && c.windowSeconds > 0
    requires 0.0 < late <= lag.spread && late <= Window(c)
    ensures var s, calls := Filled(c, lag, i), FilledThenLate(c, lag, late, i);
            Decisions(c, s.key, calls) != SpecDecisions(c, Times(s), calls)
    decreases c.capacity - i
  {
    var s, calls := Filled(c, lag, i), FilledThenLate(c, lag, late, i);
    hide Filled, Times, CheckStep, SpecAdmits, Late, Window;
    if i == c.capacity {
      LateDecision(c, lag, late);
      assert Decisions(c, s.key, calls)[0] && !SpecDecisions(c, Times(s), calls)[0];
    } else {
      FromFilled(c, lag, late, i + 1);
      EarlyDecision(c, lag, i);
      assert calls[1..] == FilledThenLate(c, lag, late, i + 1);
      assert Decisions(c, s.key, calls)[1..] == Decisions(c, Filled(c, lag, i + 1).key, calls[1..]);
      assert SpecDecisions(c, Times(s), calls)[1..] == SpecDecisions(c, Times(Filled(c, lag, i + 1)), calls[1..]);
    }
  }

  lemma EarlyDecision(c: Config, lag: Lag, i: nat)
    requires i < c.capacity && c.windowSeconds > 0
    ensures var s, a := Filled(c, lag, i), Arrival(i, Early(lag));
            && Checked(c, s.key, a) == (Filled(c, lag, i + 1).key, Allowed)
            && SpecAdmits(c, Times(s), Window(c), 0.0)
            && Times(Filled(c, lag, i + 1)) == Remembered(Times(s), a, true)
  {
    hide Trimmed, InWindow, Times, Window, Zeros, Admissions, UpTo;
    WindowPositive(c);
    NothingTrimmed(c, lag, i);
    FilledNext(c, lag, i);
    AllInWindow(c, lag, i, 0.0);
    TimesNext(c, lag, i);
  }

  lemma TimesNext(c: Config, lag: Lag, i: nat)
    ensures Times(Filled(c, lag, i + 1)) == Times(Filled(c, lag, i))[i := 0.0]
  {
  }

  lemma AllInWindow(c: Config, lag: Lag, n: nat, now: Time)
    requires 0.0 <= now < Window(c)
    ensures InWindow(Times(Filled(c, lag, n)), Window(c), now) == UpTo(n)
  {
  }

  lemma LateDecision(c: Config, lag: Lag, late: Time)
    requires c.capacity > 0 && c.windowSeconds > 0 && 0.0 < late <= Window(c)
    ensures var s, a := Filled(c, lag, c.capacity), Arrival(c.capacity, Late(c, lag, Window(c), late));
            && Checked(c, s.key, a).1 == Allowed
            && !SpecAdmits(c, Times(s), Window(c), a.at.now)
  {
    AllDropped(c, lag, Window(c), late);
    AllInWindow(c, lag, c.capacity, Late(c, lag, Window(c), late).now);
    hide Trimmed, InWindow, Filled, Times, Window;
  }
}
