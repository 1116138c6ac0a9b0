/** The resumable download gets somewhere: what is read is written and counted, what was recorded is
    not asked for again, and from every state it can reach the download can still be completed. */
module HttpProgress {
  import opened Options
  import opened Files
  import opened HttpParts
  import opened HttpDownload

  function Least(a: int, b: int): int {
    if a <= b then a else b
  }

  // The bytes at [at, at + |chunk|) are replaced; a hole before them is filled with zeros.
  ghost predicate IsOverlaid(f: seq<Byte>, at: nat, chunk: seq<Byte>, g: seq<Byte>) {
    && |g| == (if |f| >= at + |chunk| then |f| else at + |chunk|)
    && forall j :: 0 <= j < |g| ==>
         g[j] == if at <= j < at + |chunk| then chunk[j - at] else if j < |f| then f[j] else 0
  }

  // Part i has moved on by k bytes, which are those of `chunk`, and nothing else has changed but
  // what its writer does.
  ghost predicate IsMovedOn(d: Download, i: nat, chunk: seq<Byte>, e: Download)
    requires Busy(d, i) && d.parts[i].progress >= 0
  {
    && IsOverlaid(d.file, d.parts[i].progress, chunk, e.file)
    && |e.parts| == |d.parts| && |e.writers| == |d.writers|
    && e.parts[i] == Part(d.parts[i].start, d.parts[i].progress + |chunk|, d.parts[i].end)
    && (forall j :: 0 <= j < |d.parts| && j != i ==> e.parts[j] == d.parts[j])
    && (forall j :: 0 <= j < |d.writers| && j != i ==> e.writers[j] == d.writers[j])
    && e.received == d.received + |chunk|
    && e.content == d.content && e.blockNum == d.blockNum && e.record == d.record
    && e.phase == d.phase && e.late == d.late
  }

  // The bytes that a step's response carries, and those that a run's responses carry.
  function Asks(step: Step): nat {
    if step.Respond? then |step.body| else 0
  }

  function Asked(steps: seq<Step>): nat {
    if steps == [] then 0 else Asks(steps[0]) + Asked(steps[1..])
  }

  lemma {:induction false} One(d: Download, a: Step)
    requires Enabled(d, a)
    ensures Runs(d, [a]) && End(d, [a]) == Apply(d, a) && Asked([a]) == Asks(a)
  {
    hide Enabled, Apply;
    assert [a][1..] == [];
    assert Runs(Apply(d, a), []) && End(Apply(d, a), []) == Apply(d, a) && Asked([]) == 0;
  }

  lemma {:induction false} Prefixed(d: Download, a: Step, rest: seq<Step>)
    requires Enabled(d, a) && Runs(Apply(d, a), rest)
    ensures Runs(d, [a] + rest) && End(d, [a] + rest) == End(Apply(d, a), rest)
    ensures Asked([a] + rest) == Asks(a) + Asked(rest)
  {
    hide Enabled, Apply;
    assert ([a] + rest)[1..] == rest;
  }

  // The state after the four steps that carry n bytes through.
  ghost function Carried(d: Download, i: nat, n: nat): Download
    requires Enabled(d, Fetch(i, n)) && 0 <= d.parts[i].progress <= d.parts[i].end
  {
    var p, body := d.parts[i], d.writers[i].body;
    var k := Least(n, p.end + 1 - p.progress);
    d.(file := Overlay(d.file, p.progress, body[..k]), parts := d.parts[i := p.(progress := p.progress + k)],
       writers := d.writers[i := if p.progress + k == p.end + 1 then Done(true) else Streaming(body[n..])],
       received := d.received + k)
  }

  lemma {:induction false} Four(d: Download, a: Step, b: Step, c: Step, e: Step)
    requires Enabled(d, a) && Enabled(Apply(d, a), b) && Enabled(Apply(Apply(d, a), b), c)
    requires Enabled(Apply(Apply(Apply(d, a), b), c), e)
    ensures Runs(d, [a, b, c, e]) && End(d, [a, b, c, e]) == Apply(Apply(Apply(Apply(d, a), b), c), e)
    ensures Asked([a, b, c, e]) == Asks(a) + Asks(b) + Asks(c) + Asks(e)
  {
    hide Enabled, Apply, Runs, End, Asked, Asks;
    var d1 := Apply(d, a);
    var d2 := Apply(d1, b);
    One(Apply(d2, c), e);
    Prefixed(d2, c, [e]);
    Prefixed(d1, b, [c] + [e]);
    Prefixed(d, a, [b] + ([c] + [e]));
    assert [a, b, c, e] == [a] + ([b] + ([c] + [e]));
  }

  lemma {:induction false} ReadSteps(d: Download, i: nat, n: nat)
    requires Enabled(d, Fetch(i, n)) && 0 <= d.parts[i].progress <= d.parts[i].end && d.parts[i].end > 0
    ensures var steps := [Fetch(i, n), Write(i), Move(i), Count(i)];
            Runs(d, steps) && Asked(steps) == 0 && End(d, steps) == Carried(d, i, n)
  {
    hide Runs, End, Asked;
    var p, body := d.parts[i], d.writers[i].body;
    var k := Least(n, p.end + 1 - p.progress);
    assert Clamp(body[..n], p) == body[..k];
    var d1 := Apply(d, Fetch(i, n));
    assert d1 == d.(writers := d.writers[i := Holding(body[..k], body[n..])]);
    var d2 := Apply(d1, Write(i));
    var file := Overlay(d.file, p.progress, body[..k]);
    assert d2 == d.(file := file, writers := d.writers[i := Written(k, body[n..])]);
    var parts := d.parts[i := p.(progress := p.progress + k)];
    var d3 := Apply(d2, Move(i));
    assert d3 == d.(file := file, parts := parts, writers := d.writers[i := Moved(k, body[n..])]);
    assert Apply(d3, Count(i)) == Carried(d, i, n);
    Four(d, Fetch(i, n), Write(i), Move(i), Count(i));
  }

  lemma {:induction false} ReadFits(d: Download, i: nat)
    requires Inv(d) && Busy(d, i) && d.writers[i].Streaming?
    ensures 0 <= d.parts[i].progress <= d.parts[i].end && d.parts[i].end > 0
  {
    hide Inv, Valid;
    PartBounds(d, i);
  }

  /** Reading n bytes of a body and carrying them through: those the part still misses are written
      at its place, its progress and the total grow by as many, and the part is done exactly when
      its last byte was among them. */
  lemma {:induction false} ReadIsCounted(d: Download, i: nat, n: nat)
    requires Inv(d) && Enabled(d, Fetch(i, n))
    ensures var steps := [Fetch(i, n), Write(i), Move(i), Count(i)];
            var p, body := d.parts[i], d.writers[i].body;
            var k := Least(n, p.end + 1 - p.progress);
            && p.progress >= 0 && k > 0 && Runs(d, steps)
            && Asked(steps) == 0 && IsMovedOn(d, i, body[..k], End(d, steps))
            && End(d, steps).writers[i] == (if p.progress + k == p.end + 1 then Done(true) else Streaming(body[n..]))
  {
    ReadFits(d, i);
    ReadSteps(d, i, n);
  }

  lemma {:induction false} Two(d: Download, a: Step, b: Step)
    requires Enabled(d, a) && Enabled(Apply(d, a), b)
    ensures Runs(d, [a, b]) && End(d, [a, b]) == Apply(Apply(d, a), b) && Asked([a, b]) == Asks(a) + Asks(b)
  {
    hide Enabled, Apply, Runs, End, Asked, Asks;
    One(Apply(d, a), b);
    Prefixed(d, a, [b]);
    assert [a, b] == [a] + [b];
  }

  /** What was recorded when the process ended is where the next start goes on: the same parts with
      the same progress, over the same file, counted as received. */
  lemma {:induction false} RestartResumes(d: Download, truncated: bool)
    requires Inv(d) && d.phase.Active?
    ensures var steps := [Record, Crash, Begin(truncated)];
            && Runs(d, steps)
            && var e := End(d, steps);
               && e.phase.Active? && e.parts == d.parts && e.file == d.file && e.record == Some(d.parts)
               && e.received == Sum(d.parts) && |e.writers| == |d.parts|
               && forall i :: 0 <= i < |e.writers| ==> e.writers[i].AtTop?
  {
    var d1 := Apply(d, Record);
    var d2 := Apply(d1, Crash);
    assert d.parts != [] by { ValidNonempty(d.parts, d.file, d.content); }
    hide Inv, Sum;
    Two(d1, Crash, Begin(truncated));
    Prefixed(d, Record, [Crash, Begin(truncated)]);
    assert [Record, Crash, Begin(truncated)] == [Record] + [Crash, Begin(truncated)];
  }

  lemma {:induction false} RunsAppend(d: Download, a: seq<Step>, b: seq<Step>)
    requires Runs(d, a) && Runs(End(d, a), b)
    ensures Runs(d, a + b) && End(d, a + b) == End(End(d, a), b)
    decreases a
  {
    hide Enabled, Apply;
    if a == [] {
      assert a + b == b;
    } else {
      assert (a + b)[1..] == a[1..] + b;
      RunsAppend(Apply(d, a[0]), a[1..], b);
    }
  }

  lemma {:induction false} AskedAppend(a: seq<Step>, b: seq<Step>)
    ensures Asked(a + b) == Asked(a) + Asked(b)
  {
    if a == [] {
      assert a + b == b;
    } else {
      assert (a + b)[1..] == a[1..] + b;
      AskedAppend(a[1..], b);
    }
  }

  // The writers before i are done and the others have not begun.
  ghost predicate Upto(d: Download, i: nat) {
    && d.phase.Active? && |d.writers| == |d.parts| && i <= |d.parts|
    && (forall j :: 0 <= j < i ==> d.writers[j] == Done(true))
    && (forall j :: i <= j < |d.writers| ==> d.writers[j].AtTop?)
  }

  ghost predicate Advances(d: Download, i: nat, steps: seq<Step>) {
    && Runs(d, steps) && Inv(End(d, steps)) && Upto(End(d, steps), i)
    && End(d, steps).content == d.content && |End(d, steps).parts| == |d.parts|
    && Asked(steps) == Sum(End(d, steps).parts) - Sum(d.parts)
  }

  lemma {:induction false} LookDone(d: Download, i: nat)
    requires Inv(d) && Upto(d, i) && i < |d.parts| && d.parts[i].progress > d.parts[i].end
    ensures Advances(d, i + 1, [Look(i)])
  {
    hide Inv, Valid, Sum;
    PartBounds(d, i);
    StepKeeps(d, Look(i));
    One(d, Look(i));
  }

  lemma {:induction false} FirstSteps(d: Download, i: nat)
    requires Inv(d) && Upto(d, i) && i < |d.parts| && d.parts[i].progress <= d.parts[i].end
    ensures var p := d.parts[i];
            && 0 <= p.progress <= p.end + 1 <= |d.content|
            && var body := d.content[p.progress..p.end + 1];
               var steps := [Look(i), Respond(i, body)];
               && Runs(d, steps) && Asked(steps) == |body|
               && End(d, steps) == d.(writers := d.writers[i := Streaming(body)]) && Inv(End(d, steps))
  {
    hide Inv, Valid;
    PartBounds(d, i);
    var p := d.parts[i];
    var body := d.content[p.progress..p.end + 1];
    var d1 := Apply(d, Look(i));
    StepKeeps(d, Look(i));
    assert d1 == d.(writers := d.writers[i := Asking]);
    assert Enabled(d1, Respond(i, body));
    StepKeeps(d1, Respond(i, body));
    var d2 := Apply(d1, Respond(i, body));
    assert d2.writers == d.writers[i := Streaming(body)];
    Two(d, Look(i), Respond(i, body));
  }

  lemma {:induction false} MovedSum(d: Download, i: nat, chunk: seq<Byte>, e: Download)
    requires Busy(d, i) && d.parts[i].progress >= 0 && IsMovedOn(d, i, chunk, e)
    ensures Sum(e.parts) == Sum(d.parts) + |chunk|
  {
    assert e.parts == d.parts[i := e.parts[i]];
    SumUpdate(d.parts, i, e.parts[i]);
  }

  // One part from the top of its loop to its end, asking for what it misses.
  lemma {:induction false} PartCanFinish(d: Download, i: nat) returns (steps: seq<Step>)
    requires Inv(d) && Upto(d, i) && i < |d.parts|
    ensures Advances(d, i + 1, steps)
  {
    if d.parts[i].progress > d.parts[i].end {
      LookDone(d, i);
      return [Look(i)];
    }
    FirstSteps(d, i);
    var p := d.parts[i];
    var body := d.content[p.progress..p.end + 1];
    var first := [Look(i), Respond(i, body)];
    var d1 := End(d, first);
    var last := [Fetch(i, |body|), Write(i), Move(i), Count(i)];
    hide Inv, Runs, Sum, Asked, Apply;
    ReadIsCounted(d1, i, |body|);
    assert body[..|body|] == body;
    RunsAppend(d, first, last);
    RunKeeps(d, first + last);
    MovedSum(d1, i, body, End(d1, last));
    AskedAppend(first, last);
    steps := first + last;
  }

  // A run that ends in success and in which the responses carry n bytes.
  ghost predicate Completes(d: Download, steps: seq<Step>, n: int) {
    Runs(d, steps) && End(d, steps).phase == Idle(true) && Asked(steps) == n
  }

  lemma {:induction false} AllDone(d: Download)
    requires Inv(d) && Upto(d, |d.parts|)
    ensures Completes(d, [Finish(false)], |d.content| - Sum(d.parts))
  {
    One(d, Finish(false));
    SuccessIsComplete(d, false);
    PendingNone(d.writers);
    assert d.received == Sum(d.parts);
  }

  lemma {:induction false} Completed(d: Download, first: seq<Step>, rest: seq<Step>, n: int)
    requires Runs(d, first) && Completes(End(d, first), rest, n)
    ensures Completes(d, first + rest, Asked(first) + n)
  {
    hide Runs, Asked, End;
    RunsAppend(d, first, rest);
    AskedAppend(first, rest);
  }

  lemma {:induction false} PartsCanFinish(d: Download, i: nat) returns (steps: seq<Step>)
    requires Inv(d) && Upto(d, i)
    ensures Completes(d, steps, |d.content| - Sum(d.parts))
    decreases |d.parts| - i
  {
    hide Inv, Runs, Sum, Asked, Apply, End, Completes, Enabled;
    if i == |d.parts| {
      AllDone(d);
      return [Finish(false)];
    }
    var first := PartCanFinish(d, i);
    var rest := PartsCanFinish(End(d, first), i + 1);
    Completed(d, first, rest, |d.content| - Sum(End(d, first).parts));
    steps := first + rest;
  }

  lemma {:induction false} SumFresh(parts: seq<Part>)
    requires forall p :: p in parts ==> p.progress == p.start
    ensures Sum(parts) == 0
  {
    if parts != [] { SumFresh(parts[1..]); }
  }

  lemma {:induction false} BegunParts(d: Download, truncated: bool)
    requires Inv(d) && d.phase.Idle?
    ensures var e := Apply(d, Begin(truncated));
            && Upto(e, 0) && e.content == d.content
            && Sum(e.parts) == if d.record.Some? then Sum(d.record.value) else 0
  {
    if d.record.Some? {
      ValidNonempty(d.record.value, d.file, d.content);
    } else {
      GenerateTiles(|d.content|, d.blockNum);
      SumFresh(Generate(|d.content|, d.blockNum, true));
    }
  }

  lemma {:induction false} Restarted(d: Download, truncated: bool)
    requires Inv(d)
    ensures var first := [Crash, Begin(truncated)];
            && Runs(d, first) && Asked(first) == 0
            && var e := End(d, first);
               && Inv(e) && Upto(e, 0) && e.content == d.content
               && Sum(e.parts) == if d.record.Some? then Sum(d.record.value) else 0
  {
    var d1 := Apply(d, Crash);
    hide Upto, Sum;
    Two(d, Crash, Begin(truncated));
    RunKeeps(d, [Crash, Begin(truncated)]);
    StepKeeps(d, Crash);
    BegunParts(d1, truncated);
  }

  /** From every reachable state, whatever was cancelled, lost or failed: the process may end there,
      and the next start, with a server that answers, completes the file. Its responses carry
      exactly the bytes that the record does not say are there. */
  lemma {:induction false} RestartCanFinish(d: Download, truncated: bool)
    requires Inv(d)
    ensures var missing := |d.content| - (if d.record.Some? then Sum(d.record.value) else 0);
            exists steps :: Completes(d, [Crash, Begin(truncated)] + steps, missing)
  {
    hide Inv, Runs, Sum, Asked, Apply, End, Completes, Upto, Enabled;
    var first := [Crash, Begin(truncated)];
    Restarted(d, truncated);
    var d2 := End(d, first);
    var steps := PartsCanFinish(d2, 0);
    Completed(d, first, steps, |d.content| - Sum(d2.parts));
  }
}
