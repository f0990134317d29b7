/**
  Request statistics of one target: the time-weighted concurrency integral.

  Instants are positive nanoseconds; 0 is the zero time, "never".  Seconds and the integral
  are real numbers where the program uses float64.
*/
module Stats {
  import opened Wrappers

  function Seconds(nanos: int): real {
    nanos as real / 1000000000.0
  }

  /** Request time accumulated by a number of requests over a duration. */
  function Area(requests: int, nanos: int): real {
    requests as real * Seconds(nanos)
  }

  lemma AreaOfZero(requests: int, nanos: int)
    ensures Area(0, nanos) == 0.0 && Area(requests, 0) == 0.0
  {
  }

  lemma AreaAddsTime(requests: int, a: int, b: int)
    ensures Area(requests, a + b) == Area(requests, a) + Area(requests, b)
  {
    var r, x, y := requests as real, Seconds(a), Seconds(b);
    assert Seconds(a + b) == x + y;
    assert r * (x + y) == r * x + r * y;
  }

  lemma AreaAddsRequests(a: int, b: int, nanos: int)
    ensures Area(a + b, nanos) == Area(a, nanos) + Area(b, nanos)
  {
    var x, y, d := a as real, b as real, Seconds(nanos);
    assert (a + b) as real == x + y;
    assert (x + y) * d == x * d + y * d;
  }

  datatype View = View(concurrency: int, integral: real, requestCount: int, lastChange: int, secondsInUse: real)

  /** What Report answers, together with the length of the window it covers. */
  datatype Window = Window(average: real, count: int, seconds: real)

  const Fresh := View(0, 0.0, 0, 0, 0.0)

  function Moved(v: View, now: Instant): View {
    if v.lastChange == 0 then v.(lastChange := now)
    else if now > v.lastChange then
      var secs := Seconds(now - v.lastChange);
      v.(secondsInUse := v.secondsInUse + secs, integral := v.integral + Area(v.concurrency, now - v.lastChange), lastChange := now)
    else v
  }

  function In(v: View, now: Instant): View {
    var m := Moved(v, now);
    m.(concurrency := m.concurrency + 1, requestCount := m.requestCount + 1)
  }

  function Out(v: View, now: Instant): View {
    var m := Moved(v, now);
    m.(concurrency := m.concurrency - 1)
  }

  function Summary(v: View): Window {
    Window(if v.secondsInUse > 0.0 then v.integral / v.secondsInUse else 0.0, v.requestCount, v.secondsInUse)
  }

  function Cleared(v: View): View {
    v.(integral := 0.0, requestCount := 0, secondsInUse := 0.0)
  }

  /** The statistics object; its mutex makes each exported method atomic. */
  class RequestStats {
    var concurrency: int
    var integral: real
    var requestCount: int
    var lastChange: int
    var secondsInUse: real

    function Now(): View
      reads this
    {
      View(concurrency, integral, requestCount, lastChange, secondsInUse)
    }

    constructor ()
      ensures Now() == Fresh
    {
      concurrency, integral, requestCount, lastChange, secondsInUse := 0, 0.0, 0, 0, 0.0;
    }

    method Move(now: Instant)
      modifies this
      ensures Now() == Moved(old(Now()), now)
    {
      if lastChange == 0 {
        lastChange := now;
        return;
      }
      var durationSinceChange := now - lastChange;
      if durationSinceChange > 0 {
        var durationSecs := Seconds(durationSinceChange);
        secondsInUse := secondsInUse + durationSecs;
        integral := integral + concurrency as real * durationSecs;
        lastChange := now;
      }
    }

    method ReqIn(now: Instant) returns (c: int)
      modifies this
      ensures Now() == In(old(Now()), now) && c == old(concurrency) + 1
    {
      Move(now);
      concurrency := concurrency + 1;
      requestCount := requestCount + 1;
      c := concurrency;
    }

    method ReqOut(now: Instant) returns (c: int)
      modifies this
      ensures Now() == Out(old(Now()), now) && c == old(concurrency) - 1
    {
      Move(now);
      concurrency := concurrency - 1;
      c := concurrency;
    }

    method Report(now: Instant) returns (average: real, count: int)
      modifies this
      ensures var m := Moved(old(Now()), now);
        Now() == Cleared(m) && average == Summary(m).average && count == Summary(m).count
    {
      Move(now);
      count := requestCount;
      average := 0.0;
      if secondsInUse > 0.0 {
        average := integral / secondsInUse;
      }
      Reset();
    }

    method Reset()
      modifies this
      ensures Now() == Cleared(old(Now()))
    {
      integral, requestCount, secondsInUse := 0.0, 0, 0.0;
    }
  }

  // ----- runs

  datatype Op = ReqIn(at: Instant) | ReqOut(at: Instant) | Report(at: Instant)

  function Step(v: View, op: Op): View {
    match op
    case ReqIn(t) => In(v, t)
    case ReqOut(t) => Out(v, t)
    case Report(t) => Cleared(Moved(v, t))
  }

  /** The state after the first n operations. */
  function After(ops: seq<Op>, n: nat): View
    requires n <= |ops|
  {
    if n == 0 then Fresh else Step(After(ops, n - 1), ops[n - 1])
  }

  function Told(v: View, op: Op): seq<Window> {
    if op.Report? then [Summary(Moved(v, op.at))] else []
  }

  /** The windows reported by the first n operations. */
  function Windows(ops: seq<Op>, n: nat): seq<Window>
    requires n <= |ops|
  {
    if n == 0 then []
    else Windows(ops, n - 1) + Told(After(ops, n - 1), ops[n - 1])
  }

  function WindowArea(w: Window): real {
    w.average * w.seconds
  }

  function ReportedArea(ws: seq<Window>): real {
    if ws == [] then 0.0 else ReportedArea(ws[..|ws| - 1]) + WindowArea(ws[|ws| - 1])
  }

  function ReportedCount(ws: seq<Window>): int {
    if ws == [] then 0 else ReportedCount(ws[..|ws| - 1]) + ws[|ws| - 1].count
  }

  // ----- the reference: requests staying in flight, on the running-maximum clock

  function Clock(ops: seq<Op>, n: nat): int
    requires n <= |ops|
  {
    if n == 0 then 0 else Max(Clock(ops, n - 1), ops[n - 1].at)
  }

  function Sign(op: Op): int {
    match op case ReqIn(_) => 1 case ReqOut(_) => -1 case Report(_) => 0
  }

  function Level(ops: seq<Op>, n: nat): int
    requires n <= |ops|
  {
    if n == 0 then 0 else Level(ops, n - 1) + Sign(ops[n - 1])
  }

  /** Every arrival among the first n operations counts from its own instant up to end, every
      departure takes the rest away again. */
  function InFlightTime(ops: seq<Op>, n: nat, end: int): real
    requires n <= |ops|
  {
    if n == 0 then 0.0
    else InFlightTime(ops, n - 1, end) + Area(Sign(ops[n - 1]), end - Clock(ops, n))
  }

  function Arrivals(ops: seq<Op>, n: nat): int
    requires n <= |ops|
  {
    if n == 0 then 0 else Arrivals(ops, n - 1) + if ops[n - 1].ReqIn? then 1 else 0
  }

  lemma {:induction false} StateMeaning(ops: seq<Op>, n: nat)
    requires n <= |ops|
    ensures var v := After(ops, n); v.concurrency == Level(ops, n) && v.lastChange == Clock(ops, n) && Sound(v)
    ensures n > 0 ==> Clock(ops, n) > 0
  {
    if n > 0 {
      StateMeaning(ops, n - 1);
    }
  }

  lemma {:induction false} StayLonger(ops: seq<Op>, n: nat, end: int, later: int)
    requires n <= |ops|
    ensures InFlightTime(ops, n, later) == InFlightTime(ops, n, end) + Area(Level(ops, n), later - end)
  {
    if n == 0 {
      AreaOfZero(0, later - end);
    } else {
      StayLonger(ops, n - 1, end, later);
      var sign, c := Sign(ops[n - 1]), Clock(ops, n);
      AreaAddsTime(sign, end - c, later - end);
      AreaAddsRequests(Level(ops, n - 1), sign, later - end);
    }
  }

  lemma {:induction false} InFlightStep(ops: seq<Op>, n: nat)
    requires n < |ops|
    ensures InFlightTime(ops, n + 1, Clock(ops, n + 1)) ==
      InFlightTime(ops, n, Clock(ops, n)) + Area(Level(ops, n), Clock(ops, n + 1) - Clock(ops, n))
  {
    StayLonger(ops, n, Clock(ops, n), Clock(ops, n + 1));
    AreaOfZero(Sign(ops[n]), 0);
  }

  lemma {:induction false} ReportedOneMore(ws: seq<Window>, w: Window)
    ensures ReportedArea(ws + [w]) == ReportedArea(ws) + WindowArea(w)
    ensures ReportedCount(ws + [w]) == ReportedCount(ws) + w.count
  {
    assert (ws + [w])[..|ws|] == ws;
  }

  /** Clearing moves what the integral holds into the reported windows. */
  lemma ReportMovesArea(v: View, now: Instant)
    requires Sound(v)
    ensures WindowArea(Summary(Moved(v, now))) == Moved(v, now).integral
  {
    var m := Moved(v, now);
    if m.secondsInUse > 0.0 {
      var q := m.integral / m.secondsInUse;
      assert q * m.secondsInUse == m.integral;
    }
  }

  ghost predicate Sound(v: View) {
    && v.lastChange >= 0 && (v.lastChange == 0 ==> v.concurrency == 0)
    && v.secondsInUse >= 0.0 && (v.secondsInUse == 0.0 ==> v.integral == 0.0)
  }

  lemma MovedArea(v: View, now: Instant)
    requires Sound(v)
    ensures Moved(v, now).integral == v.integral + Area(v.concurrency, Max(v.lastChange, now) - v.lastChange)
  {
    AreaOfZero(v.concurrency, now);
  }

  /** Reported and unreported area make up total, reported and pending counts make up arrivals. */
  predicate Balanced(ws: seq<Window>, v: View, total: real, arrivals: int) {
    ReportedArea(ws) + v.integral == total && ReportedCount(ws) + v.requestCount == arrivals
  }

  lemma {:induction false} AccountStep(ws: seq<Window>, v: View, op: Op, total: real, arrivals: int)
    requires Sound(v) && Balanced(ws, v, total, arrivals)
    ensures Balanced(ws + Told(v, op), Step(v, op),
                     total + Area(v.concurrency, Max(v.lastChange, op.at) - v.lastChange),
                     arrivals + if op.ReqIn? then 1 else 0)
  {
    MovedArea(v, op.at);
    if op.Report? {
      ReportMovesArea(v, op.at);
      ReportedOneMore(ws, Summary(Moved(v, op.at)));
    } else {
      assert ws + Told(v, op) == ws;
    }
  }

  /** Area law: over any run, with timestamps in any order, the reported averages times their
      window lengths plus the integral not reported yet add up to the total time requests have
      been in flight; and reported plus pending request counts are the number of arrivals. */
  lemma {:induction false} AreaLaw(ops: seq<Op>, n: nat)
    requires n <= |ops|
    ensures Balanced(Windows(ops, n), After(ops, n), InFlightTime(ops, n, Clock(ops, n)), Arrivals(ops, n))
  {
    if n > 0 {
      AreaLaw(ops, n - 1);
      StateMeaning(ops, n - 1);
      InFlightStep(ops, n - 1);
      AccountStep(Windows(ops, n - 1), After(ops, n - 1), ops[n - 1],
                  InFlightTime(ops, n - 1, Clock(ops, n - 1)), Arrivals(ops, n - 1));
    }
  }

  /** The level after n operations is held for some time before the next one. */
  predicate Held(ops: seq<Op>, n: nat) {
    1 <= n < |ops| && Clock(ops, n) < Clock(ops, n + 1)
  }

  predicate Between(v: View, lo: real, hi: real) {
    lo * v.secondsInUse <= v.integral <= hi * v.secondsInUse
  }

  lemma MovedBetween(v: View, now: Instant, lo: real, hi: real)
    requires Between(v, lo, hi) && v.lastChange >= 0
    requires 0 < v.lastChange < now ==> lo <= v.concurrency as real <= hi
    ensures Between(Moved(v, now), lo, hi)
  {
    if 0 < v.lastChange < now {
      var d, c := Seconds(now - v.lastChange), v.concurrency as real;
      assert d > 0.0;
      assert lo * d <= c * d <= hi * d;
      assert lo * (v.secondsInUse + d) == lo * v.secondsInUse + lo * d;
      assert hi * (v.secondsInUse + d) == hi * v.secondsInUse + hi * d;
    }
  }

  lemma EmptyBetween(v: View, lo: real, hi: real)
    requires v.secondsInUse == v.integral == 0.0
    ensures Between(v, lo, hi)
  {
  }

  lemma StepBetween(v: View, op: Op, lo: real, hi: real)
    requires Between(Moved(v, op.at), lo, hi) && !op.Report?
    ensures Between(Step(v, op), lo, hi)
  {
    assert Step(v, op).secondsInUse == Moved(v, op.at).secondsInUse;
    assert Step(v, op).integral == Moved(v, op.at).integral;
  }

  lemma {:induction false} WindowBetween(ops: seq<Op>, from: nat, n: nat, lo: real, hi: real)
    requires from <= n < |ops| && (from == 0 || ops[from - 1].Report?)
    requires forall i | from <= i < n :: !ops[i].Report?
    requires forall i | from <= i <= n && Held(ops, i) :: lo <= Level(ops, i) as real <= hi
    ensures Between(Moved(After(ops, n), ops[n].at), lo, hi)
  {
    if n > from {
      WindowBetween(ops, from, n - 1, lo, hi);
      StepBetween(After(ops, n - 1), ops[n - 1], lo, hi);
    } else {
      EmptyBetween(After(ops, n), lo, hi);
    }
    StateMeaning(ops, n);
    MovedBetween(After(ops, n), ops[n].at, lo, hi);
  }

  /** A report over a window of positive length averages between the least and the greatest
      level that was held for some time since the report before it. */
  lemma {:induction false} ReportBetween(ops: seq<Op>, from: nat, last: nat, lo: real, hi: real)
    requires from <= last < |ops| && ops[last].Report? && (from == 0 || ops[from - 1].Report?)
    requires forall i | from <= i < last :: !ops[i].Report?
    requires forall i | from <= i <= last && Held(ops, i) :: lo <= Level(ops, i) as real <= hi
    ensures var w := Summary(Moved(After(ops, last), ops[last].at));
      && Windows(ops, last + 1) == Windows(ops, last) + [w]
      && (w.seconds > 0.0 ==> lo <= w.average <= hi)
  {
    WindowBetween(ops, from, last, lo, hi);
    SummaryBetween(Moved(After(ops, last), ops[last].at), lo, hi);
  }

  lemma SummaryBetween(v: View, lo: real, hi: real)
    requires Between(v, lo, hi)
    ensures v.secondsInUse > 0.0 ==> lo <= Summary(v).average <= hi
  {
    if v.secondsInUse > 0.0 {
      QuotientBetween(v.integral, v.secondsInUse, lo, hi);
    }
  }

  lemma QuotientBetween(x: real, d: real, lo: real, hi: real)
    requires d > 0.0 && lo * d <= x <= hi * d
    ensures lo <= x / d <= hi
  {
    var q := x / d;
    assert q * d == x;
    assert (q - lo) * d >= 0.0 && (hi - q) * d >= 0.0;
  }

  // ----- what a window covers

  /** The number of operations up to the latest report among the first n. */
  function LastReport(ops: seq<Op>, n: nat): (r: nat)
    requires n <= |ops|
    ensures r <= n
  {
    if n == 0 || ops[n - 1].Report? then n else LastReport(ops, n - 1)
  }

  lemma SecondsAdd(a: int, b: int)
    ensures Seconds(a + b) == Seconds(a) + Seconds(b) && Seconds(a) * 1000000000.0 == a as real
  {
  }

  /** The window has the arrivals since the latest report, and its seconds are the time since
      then, or since the first operation, on the running-maximum clock in nanoseconds. */
  lemma {:induction false} WindowMeaning(ops: seq<Op>, n: nat)
    requires 0 < n <= |ops|
    ensures var v, r := After(ops, n), LastReport(ops, n);
      && v.requestCount == Arrivals(ops, n) - Arrivals(ops, r)
      && v.secondsInUse == Seconds(Clock(ops, n) - Clock(ops, Max(1, r)))
      && v.secondsInUse * 1000000000.0 == (Clock(ops, n) - Clock(ops, Max(1, r))) as real
  {
    StateMeaning(ops, n - 1);
    if n > 1 {
      WindowMeaning(ops, n - 1);
      SecondsAdd(Clock(ops, n - 1) - Clock(ops, Max(1, LastReport(ops, n - 1))), Clock(ops, n) - Clock(ops, n - 1));
    }
    SecondsAdd(Clock(ops, n) - Clock(ops, Max(1, LastReport(ops, n))), 0);
  }

  /** A report answers the arrivals since the report before it; over a window in which no time has
      passed it answers the average 0. */
  lemma {:induction false} ReportMeaning(ops: seq<Op>, i: nat)
    requires i < |ops| && ops[i].Report?
    ensures var w := Summary(Moved(After(ops, i), ops[i].at));
      && Windows(ops, i + 1) == Windows(ops, i) + [w]
      && w.count == Arrivals(ops, i) - Arrivals(ops, LastReport(ops, i))
      && (i > 0 && Clock(ops, i + 1) == Clock(ops, Max(1, LastReport(ops, i))) ==> w.average == 0.0)
  {
    StateMeaning(ops, i);
    if i > 0 {
      WindowMeaning(ops, i);
    }
  }
}
