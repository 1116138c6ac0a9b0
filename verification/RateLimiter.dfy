/** The token bucket that bounds the download speed, in exact reals. Times are
    seconds on a clock that never runs backwards. */
module RateLimiter {

  datatype Bucket = Bucket(rate: int, allowance: real, last: real)

  // What one pass under the lock tells a waiting caller.
  datatype Answer = Free | Granted | Sleep(seconds: real)

  // The two calls that reach the bucket. A Take is one pass of Wait's loop.
  datatype Event = Set(rate: int, at: real) | Take(bytes: int, at: real)

  function New(rate: int, now: real): Bucket {
    Bucket(rate, rate as real, now)
  }

  function AtMost(x: real, rate: int): real {
    if x > rate as real then rate as real else x
  }

  // What comes in over a stretch of time.
  function Flow(seconds: real, rate: int): real {
    seconds * rate as real
  }

  function Refill(b: Bucket, now: real): Bucket {
    if b.rate <= 0 then b.(last := now)
    else if now - b.last <= 0.0 then b
    else Bucket(b.rate, AtMost(b.allowance + Flow(now - b.last, b.rate), b.rate), now)
  }

  function SetRate(b: Bucket, rate: int, now: real): Bucket {
    var wanted := if rate < 0 then 0 else rate;
    var filled := Refill(b, now);
    if wanted == 0 then Bucket(0, 0.0, filled.last)
    else Bucket(wanted, AtMost(filled.allowance, wanted), filled.last)
  }

  function Pause(deficit: real, rate: int): real
    requires rate > 0
  {
    if deficit / rate as real < 0.01 then 0.01 else deficit / rate as real
  }

  function TakeOnce(b: Bucket, bytes: int, now: real): (Bucket, Answer) {
    if bytes <= 0 || b.rate <= 0 then (b, Free)
    else
      var filled := Refill(b, now);
      if filled.allowance >= bytes as real
      then (filled.(allowance := filled.allowance - bytes as real), Granted)
      else (filled, Sleep(Pause(bytes as real - filled.allowance, b.rate)))
  }

  function Step(b: Bucket, e: Event): Bucket {
    match e
    case Set(rate, at) => SetRate(b, rate, at)
    case Take(bytes, at) => TakeOnce(b, bytes, at).0
  }

  function Run(b: Bucket, events: seq<Event>): Bucket
    decreases events
  {
    if events == [] then b else Run(Step(b, events[0]), events[1..])
  }

  // Bytes an event charges to the bucket.
  function Charge(b: Bucket, e: Event): int {
    if e.Take? && TakeOnce(b, e.bytes, e.at).1 == Granted then e.bytes else 0
  }

  function Charged(b: Bucket, events: seq<Event>): int
    decreases events
  {
    if events == [] then 0 else Charge(b, events[0]) + Charged(Step(b, events[0]), events[1..])
  }

  predicate Ordered(from: real, events: seq<Event>)
    decreases events
  {
    events == [] || (from <= events[0].at && Ordered(events[0].at, events[1..]))
  }

  function NextRate(rate: int, e: Event): int {
    if e.Take? then rate else if e.rate < 0 then 0 else e.rate
  }

  // The integral of the rate in force, from `from` to the last event. It depends on
  // the rate settings alone, not on the bucket.
  function Area(rate: int, from: real, events: seq<Event>): real
    decreases events
  {
    if events == [] then 0.0
    else Flow(events[0].at - from, rate) + Area(NextRate(rate, events[0]), events[0].at, events[1..])
  }

  function End(from: real, events: seq<Event>): real {
    if events == [] then from else events[|events| - 1].at
  }

  predicate InRange(b: Bucket) {
    0.0 <= b.allowance <= b.rate as real
  }

  // -------------------------------------------------------------- single steps

  lemma {:induction false} FlowAdds(x: real, y: real, rate: int)
    ensures Flow(x, rate) + Flow(y, rate) == Flow(x + y, rate)
  {}

  lemma {:induction false} FlowGrows(x: real, y: real, rate: int)
    requires rate >= 0 && x <= y
    ensures Flow(x, rate) <= Flow(y, rate)
    ensures Flow(0.0, rate) == 0.0
  {
    assert Flow(y - x, rate) >= 0.0;
    FlowAdds(x, y - x, rate);
  }

  lemma {:induction false} RefillKeeps(b: Bucket, now: real)
    requires InRange(b)
    ensures InRange(Refill(b, now))
  {
    hide Flow;
    if b.rate > 0 && now - b.last > 0.0 {
      FlowGrows(0.0, now - b.last, b.rate);
    }
  }

  lemma {:induction false} StepKeeps(b: Bucket, e: Event)
    requires InRange(b)
    ensures InRange(Step(b, e)) && Step(b, e).rate == NextRate(b.rate, e)
    ensures b.last <= e.at ==> Step(b, e).last <= e.at
  {
    RefillKeeps(b, e.at);
  }

  /** Filling in two goes is filling in one. */
  lemma {:induction false} RefillTwice(b: Bucket, t: real, u: real)
    requires InRange(b) && b.last <= t <= u
    ensures Refill(Refill(b, t), u) == Refill(b, u)
  {
    hide Flow;
    if b.rate > 0 {
      FlowGrows(0.0, t - b.last, b.rate);
      FlowGrows(0.0, u - t, b.rate);
      FlowAdds(t - b.last, u - t, b.rate);
      assert t - b.last + (u - t) == u - b.last;
    }
  }

  lemma {:induction false} RefillGain(b: Bucket, from: real, t: real)
    requires InRange(b) && b.last <= from <= t
    ensures Refill(b, t).allowance <= Refill(b, from).allowance + Flow(t - from, b.rate)
  {
    hide Flow;
    RefillTwice(b, from, t);
    FlowGrows(0.0, t - from, b.rate);
  }

  lemma {:induction false} StepPays(b: Bucket, from: real, e: Event)
    requires InRange(b) && b.last <= from <= e.at
    ensures Charge(b, e) as real + Refill(Step(b, e), e.at).allowance
            <= Refill(b, from).allowance + Flow(e.at - from, b.rate)
  {
    hide Flow;
    RefillGain(b, from, e.at);
    RefillKeeps(b, e.at);
  }

  // ----------------------------------------------------------------- whole runs

  /** A bucket that starts in range stays there through every run. */
  lemma {:induction false} RunKeeps(b: Bucket, from: real, events: seq<Event>)
    requires InRange(b) && b.last <= from && Ordered(from, events)
    ensures InRange(Run(b, events)) && Run(b, events).last <= End(from, events)
    decreases events
  {
    if events != [] {
      StepKeeps(b, events[0]);
      RunKeeps(Step(b, events[0]), events[0].at, events[1..]);
    }
  }

  /** The allowance stays between nothing and one second's worth through every run,
      while limited, exactly when the bucket is not made with a negative rate. */
  lemma {:induction false} InRangeIff(rate: int, start: real)
    ensures (forall events :: Ordered(start, events) ==>
              var b := Run(New(rate, start), events); b.rate > 0 ==> InRange(b))
            <==> rate >= 0
  {
    if rate >= 0 {
      forall events | Ordered(start, events)
        ensures InRange(Run(New(rate, start), events))
      {
        RunKeeps(New(rate, start), start, events);
      }
    } else {
      var events := [Set(10, start)];
      var b := New(rate, start);
      assert Ordered(start, events);
      assert Run(b, events) == Run(Step(b, events[0]), []);
      assert !InRange(Run(b, events));
    }
  }

  /** Through any run, rate changes included, the bytes charged never exceed what was
      in the bucket plus the integral of the rate. */
  lemma {:induction false} ChargedBound(b: Bucket, from: real, events: seq<Event>)
    requires InRange(b) && b.last <= from && Ordered(from, events)
    ensures Charged(b, events) as real <= Refill(b, from).allowance + Area(b.rate, from, events)
    decreases events
  {
    RefillKeeps(b, from);
    if events != [] {
      var e := events[0];
      StepPays(b, from, e);
      StepKeeps(b, e);
      ChargedBound(Step(b, e), e.at, events[1..]);
    }
  }

  /** From creation on: no more than the first rate plus the integral of the rate. */
  lemma {:induction false} ChargedSinceCreation(rate: nat, start: real, events: seq<Event>)
    requires Ordered(start, events)
    ensures Charged(New(rate, start), events) as real <= rate as real + Area(rate, start, events)
  {
    ChargedBound(New(rate, start), start, events);
  }

  predicate Steady(rate: int, events: seq<Event>) {
    forall i :: 0 <= i < |events| ==> NextRate(rate, events[i]) == rate
  }

  lemma {:induction false} SteadyArea(rate: nat, from: real, events: seq<Event>)
    requires Steady(rate, events) && Ordered(from, events)
    ensures Area(rate, from, events) == Flow(End(from, events) - from, rate)
    decreases events
  {
    hide Flow;
    FlowGrows(0.0, 0.0, rate);
    if events != [] {
      var e, rest := events[0], events[1..];
      assert forall i :: 0 <= i < |rest| ==> rest[i] == events[i + 1];
      SteadyArea(rate, e.at, rest);
      FlowAdds(e.at - from, End(e.at, rest) - e.at, rate);
      assert e.at - from + (End(e.at, rest) - e.at) == End(e.at, rest) - from;
    }
  }

  lemma {:induction false} OrderedSplit(from: real, a: seq<Event>, b: seq<Event>)
    requires Ordered(from, a + b)
    ensures Ordered(from, a) && Ordered(End(from, a), b)
    decreases a
  {
    if a == [] {
      assert a + b == b;
    } else {
      assert (a + b)[1..] == a[1..] + b;
      OrderedSplit(a[0].at, a[1..], b);
    }
  }

  lemma {:induction false} SteadyBound(b: Bucket, window: seq<Event>)
    requires InRange(b) && window != [] && b.last <= window[0].at && Ordered(window[0].at, window)
    requires Steady(b.rate, window)
    ensures Charged(b, window) as real <= b.rate as real + Flow(window[|window| - 1].at - window[0].at, b.rate)
  {
    hide Flow, Charged, Area, Ordered, Steady;
    var from := window[0].at;
    ChargedBound(b, from, window);
    RefillKeeps(b, from);
    SteadyArea(b.rate, from, window);
  }

  /** In any window of any run during which the rate stays R, no more than
      R + R * (length of the window) bytes are charged. */
  lemma {:induction false} WindowBound(first: nat, start: real, before: seq<Event>, window: seq<Event>)
    requires window != [] && Ordered(start, before + window)
    requires Steady(Run(New(first, start), before).rate, window)
    ensures var b := Run(New(first, start), before);
            Charged(b, window) as real
            <= b.rate as real + Flow(window[|window| - 1].at - window[0].at, b.rate)
  {
    hide Flow, Charged, Steady, Run;
    OrderedSplit(start, before, window);
    RunKeeps(New(first, start), start, before);
    SteadyBound(Run(New(first, start), before), window);
  }

  /** The window bound is met: the full bucket at once and one rate's worth a second
      later. */
  lemma {:induction false} WindowBoundIsTight(rate: nat, start: real)
    requires rate > 0
    ensures var window := [Take(rate, start), Take(rate, start + 1.0)];
            && Ordered(start, window)
            && Charged(New(rate, start), window) as real
               == rate as real + Flow(End(start, window) - start, rate)
  {
    var first, second := Take(rate, start), Take(rate, start + 1.0);
    var b := New(rate, start);
    var c := Step(b, first);
    assert c == Bucket(rate, 0.0, start);
    assert 1.0 * rate as real == rate as real;
    assert Charged(Step(c, second), []) == 0;
    assert [first, second][1..] == [second];
    assert Charged(c, [second]) == Charge(c, second) + Charged(Step(c, second), [second][1..]);
  }

  // ---------------------------------------------------------------- being served

  lemma {:induction false} Earned(deficit: real, rate: int)
    requires rate > 0
    ensures Flow(deficit / rate as real, rate) == deficit
  {}

  /** A refused pass names the moment: asked again by itself after d seconds, the
      bucket grants exactly when d covers the deficit; so never when the request is
      larger than the rate, and always after the pause the pass asked for when it is
      not. */
  lemma {:induction false} GrantedAfter(b: Bucket, bytes: int, now: real, d: real)
    requires InRange(b) && b.last <= now && d >= 0.0 && TakeOnce(b, bytes, now).1.Sleep?
    ensures var (c, answer) := TakeOnce(b, bytes, now);
            && (TakeOnce(c, bytes, now + d).1 == Granted <==>
                bytes <= b.rate && Flow(d, b.rate) >= bytes as real - c.allowance)
            && (bytes <= b.rate && d >= answer.seconds ==> TakeOnce(c, bytes, now + d).1 == Granted)
  {
    var (c, answer) := TakeOnce(b, bytes, now);
    var deficit := bytes as real - c.allowance;
    RefillKeeps(b, now);
    assert (now + d) - c.last == d;
    Earned(deficit, b.rate);
    hide Flow;
    FlowGrows(0.0, d, b.rate);
    if d >= answer.seconds {
      FlowGrows(deficit / b.rate as real, d, b.rate);
    }
  }

  /** What a change of the rate does to the next request. The credit earned up to the change is
      kept, up to the new rate: between two limits a request passes at once exactly when it would
      have passed before and is within the new rate. Without a limit everything passes, and a
      limit set after that starts with nothing. */
  lemma {:induction false} RateChangeKeepsCredit(b: Bucket, rate: int, now: real, bytes: int)
    requires InRange(b) && b.last <= now && bytes > 0
    ensures var c, credit := SetRate(b, rate, now), Refill(b, now).allowance;
            && c.rate == (if rate > 0 then rate else 0) && c.last == now
            && (rate > 0 ==> 0.0 <= c.allowance <= credit && c.allowance <= rate as real
                             && (c.allowance == credit || c.allowance == rate as real))
    ensures var answer := TakeOnce(SetRate(b, rate, now), bytes, now).1;
            && (rate <= 0 ==> answer == Free)
            && (rate > 0 && b.rate == 0 ==> answer.Sleep?)
            && (rate > 0 && b.rate > 0 ==>
                  (answer == Granted <==> bytes <= rate && TakeOnce(b, bytes, now).1 == Granted))
  {
    hide Flow;
    RefillKeeps(b, now);
    if b.rate > 0 { FlowGrows(0.0, 0.0, b.rate); }
  }

  // ------------------------------------------------------------- the object itself

  // The environment's clock. Each sleep may last longer than asked by the next of `late`.
  class Clock {
    var now: real
    var late: seq<real>

    constructor (now: real, late: seq<real>)
      ensures this.now == now && this.late == late
    {
      this.now, this.late := now, late;
    }

    method Rest(seconds: real)
      modifies this
      ensures now >= old(now) + seconds
    {
      var extra := 0.0;
      if late != [] {
        extra := if late[0] > 0.0 then late[0] else 0.0;
        late := late[1..];
      }
      now := now + seconds + extra;
    }
  }

  class Limiter {
    var rate: int
    var allowance: real
    var last: real

    ghost function Abs(): Bucket
      reads this
    {
      Bucket(rate, allowance, last)
    }

    constructor (rateBytesPerSecond: int, now: real)
      ensures Abs() == New(rateBytesPerSecond, now)
    {
      rate, allowance, last := rateBytesPerSecond, rateBytesPerSecond as real, now;
    }

    method RefillLocked(now: real)
      modifies this
      ensures Abs() == Refill(old(Abs()), now)
    {
      if rate <= 0 {
        last := now;
        return;
      }
      var elapsed := now - last;
      if elapsed <= 0.0 { return; }
      allowance := allowance + Flow(elapsed, rate);
      if allowance > rate as real { allowance := rate as real; }
      last := now;
    }

    method ChangeRate(rateBytesPerSecond: int, now: real)
      modifies this
      ensures Abs() == SetRate(old(Abs()), rateBytesPerSecond, now)
    {
      var wanted := rateBytesPerSecond;
      if wanted < 0 { wanted := 0; }
      RefillLocked(now);
      rate := wanted;
      if rate == 0 {
        allowance := 0.0;
        return;
      }
      if allowance > rate as real { allowance := rate as real; }
    }

    // One pass of Wait's loop, from lock to unlock.
    method Pass(bytes: int, now: real) returns (answer: Answer)
      modifies this
      ensures (Abs(), answer) == TakeOnce(old(Abs()), bytes, now)
    {
      if bytes <= 0 || rate <= 0 { return Free; }
      RefillLocked(now);
      if allowance >= bytes as real {
        allowance := allowance - bytes as real;
        return Granted;
      }
      var wait := (bytes as real - allowance) / rate as real;
      if wait < 0.01 { wait := 0.01; }
      answer := Sleep(wait);
    }

    /** Wait with nobody else at the bucket, cancelled at the sleep after `patience`
        sleeps. A served call charges its bytes to the refilled bucket once; a
        cancelled one charges nothing; a request within the rate is served after at
        most one sleep; one above the rate never is. */
    method Wait(clock: Clock, bytes: int, patience: nat) returns (served: bool)
      requires InRange(Abs()) && last <= clock.now
      modifies this, clock
      ensures InRange(Abs()) && clock.now >= old(clock.now) && rate == old(rate) && last <= clock.now
      ensures bytes <= 0 || rate <= 0 ==> served && Abs() == old(Abs()) && clock.now == old(clock.now)
      ensures bytes > 0 && rate > 0 && served ==>
                var full := Refill(old(Abs()), clock.now);
                Abs() == full.(allowance := full.allowance - bytes as real)
      ensures !served ==> Abs() == Refill(old(Abs()), last)
      ensures 0 < bytes <= rate && patience > 0 ==> served
      ensures 0 < rate < bytes ==> !served
    {
      ghost var b := Abs();
      var sleeps := 0;
      while true
        invariant 0 <= sleeps <= patience
        invariant old(clock.now) <= clock.now && last <= clock.now && rate == b.rate && InRange(Abs())
        invariant sleeps == 0 ==> Abs() == b && clock.now == old(clock.now)
        invariant sleeps > 0 ==> 0 < bytes && 0 < rate && b.last <= last && Abs() == Refill(b, last)
        invariant sleeps > 0 && bytes <= rate ==> Refill(b, clock.now).allowance >= bytes as real
        decreases patience - sleeps
      {
        var t := clock.now;
        ghost var before := Abs();
        RefillKeeps(before, t);
        if sleeps > 0 { RefillTwice(b, before.last, t); }
        var answer := Pass(bytes, t);
        if !answer.Sleep? { return true; }
        if sleeps == patience { return false; }
        clock.Rest(answer.seconds);
        sleeps := sleeps + 1;
        GrantedAfter(before, bytes, t, clock.now - t);
        RefillTwice(b, t, clock.now);
      }
    }
  }

  /** Charging a large read in pieces no larger than the rate: the call is always
      served when each piece may sleep once, and the bytes take their time: no more
      pass than one second's worth plus the rate times the time spent. */
  method WaitLimited(limiter: Limiter, clock: Clock, n: nat, patience: nat) returns (served: bool)
    requires InRange(limiter.Abs()) && limiter.last <= clock.now
    modifies limiter, clock
    ensures InRange(limiter.Abs()) && limiter.rate == old(limiter.rate) && clock.now >= old(clock.now)
    ensures limiter.rate <= 0 || patience > 0 ==> served
    ensures limiter.rate <= 0 ==> limiter.Abs() == old(limiter.Abs()) && clock.now == old(clock.now)
    ensures served && limiter.rate > 0 && n > 0 ==>
              n as real + limiter.allowance
              <= old(limiter.rate) as real + Flow(clock.now - old(clock.now), old(limiter.rate))
  {
    var left := n;
    var rate := limiter.rate;
    if n == 0 || rate <= 0 { return true; }
    ghost var start := clock.now;
    hide Flow;
    FlowGrows(0.0, 0.0, rate);
    RefillKeeps(limiter.Abs(), start);
    while left > 0
      invariant 0 <= left <= n && limiter.rate == rate && InRange(limiter.Abs())
      invariant start <= clock.now && limiter.last <= clock.now
      invariant (n - left) as real + Refill(limiter.Abs(), clock.now).allowance <= rate as real + Flow(clock.now - start, rate)
    {
      var chunk := if left > rate then rate else left;
      ghost var t, before := clock.now, limiter.Abs();
      served := limiter.Wait(clock, chunk, patience);
      if !served { return; }
      RefillGain(before, t, clock.now);
      FlowAdds(t - start, clock.now - t, rate);
      assert t - start + (clock.now - t) == clock.now - start;
      left := left - chunk;
    }
    FlowGrows(0.0, clock.now - limiter.last, rate);
    return true;
  }
}
