/** One range part from its first request to its last: downloadPart and copyPart, with a server that
    may refuse, cut short or overshoot any response, a disk that may fail any write, and a caller who
    may cancel at any time. */
module HttpRetry {
  import opened Options
  import opened Files
  import opened HttpParts
  import opened HttpDownload

  // What one read of a body returns. A torn write puts down the first bytes and fails.
  datatype Read = Data(bytes: seq<Byte>, torn: Option<nat>) | Broken | Cancels

  // What a request leads to; the end of the reads is the end of the body.
  datatype Response = Unreachable | Rejected | Cancelled | Body(start: int, body: seq<Read>)

  function Flat(body: seq<Read>): seq<Byte> {
    if body == [] then []
    else (if body[0].Data? then body[0].bytes else []) + Flat(body[1..])
  }

  // A read after which the copying goes on: its bytes, if it has any, are written whole.
  predicate Passes(read: Read) {
    read.Data? && (read.torn.None? || read.bytes == [])
  }

  // How many bytes come before the first read that does not pass, and which read that is.
  function Brought(body: seq<Read>): nat {
    if body == [] || !Passes(body[0]) then 0 else |body[0].bytes| + Brought(body[1..])
  }

  function StoppedBy(body: seq<Read>): Option<Read> {
    if body == [] then None else if Passes(body[0]) then StoppedBy(body[1..]) else Some(body[0])
  }

  /** They are the bytes of all reads up to the first that fails, tears or cancels. */
  lemma {:induction false} BroughtIs(body: seq<Read>, i: nat)
    requires i <= |body| && (forall j :: 0 <= j < i ==> Passes(body[j])) && (i < |body| ==> !Passes(body[i]))
    ensures Brought(body) == |Flat(body[..i])| && StoppedBy(body) == if i < |body| then Some(body[i]) else None
    decreases body
  {
    if i > 0 {
      assert body[..i][0] == body[0] && body[..i][1..] == body[1..][..i - 1];
      BroughtIs(body[1..], i - 1);
    }
  }

  /** One read of all the bytes there are brings them all. */
  lemma {:induction false} OneReadBrings(bytes: seq<Byte>)
    ensures Brought([Data(bytes, None)]) == |bytes| && StoppedBy([Data(bytes, None)]) == None
  {
    var body := [Data(bytes, None)];
    assert Brought(body) == |bytes| + Brought(body[1..]) && body[1..] == [];
  }

  datatype Verdict = Complete | Failed | Stopped

  // What becomes of a part that stands at `progress` and ends at `end`.
  function Gain(response: Response, progress: int, end: int): (n: nat)
    requires progress <= end
    ensures progress + n <= end + 1
  {
    if !response.Body? || response.start != progress then 0
    else if progress + Brought(response.body) > end then end + 1 - progress
    else Brought(response.body)
  }

  function VerdictOn(response: Response, progress: int, end: int): Verdict
    requires progress <= end
  {
    if response.Cancelled? then Stopped
    else if progress + Gain(response, progress, end) == end + 1 then Complete
    else if response.Body? && response.start == progress && StoppedBy(response.body) == Some(Cancels) then Stopped
    else Failed
  }

  // -1 is "give up".
  function UpdateRetryCount(failures: int, maxRetries: int, madeProgress: bool): int {
    var limit := if maxRetries < 0 then 0 else maxRetries;
    var next := (if madeProgress then 0 else failures) + 1;
    if next > limit then -1 else next
  }

  function Limit(maxRetries: int): nat {
    if maxRetries < 0 then 0 else maxRetries
  }

  // How many requests are still possible with this many bytes missing and this many failures in a row.
  function Budget(missing: int, limit: nat, failures: int): int {
    if missing <= 0 then 0 else (missing - 1) * limit + (limit - failures) + 1
  }

  lemma {:induction false} Monotone(a: int, b: int, k: nat)
    requires a <= b
    ensures a * k <= b * k
  {
  }

  /** A failed attempt lowers the budget, whether it made progress or not. */
  lemma {:induction false} BudgetFalls(missing: int, limit: nat, failures: int, left: int)
    requires 0 < left <= missing && 0 <= failures <= limit
    requires UpdateRetryCount(failures, limit, left < missing) >= 0
    ensures 0 <= Budget(left, limit, UpdateRetryCount(failures, limit, left < missing)) < Budget(missing, limit, failures)
    ensures UpdateRetryCount(failures, limit, left < missing) <= limit
  {
    if left < missing {
      assert (left - 1) * limit <= (missing - 2) * limit by { Monotone(left - 1, missing - 2, limit); }
      assert (missing - 2) * limit == (missing - 1) * limit - limit;
    }
    assert (left - 1) * limit >= 0;
  }

  // ---- How often a part can be asked for, as a count over outcomes ----

  // `gains[k]` is how many bytes attempt k adds before it fails; an attempt that adds everything
  // that is missing succeeds.
  function Requests(missing: int, limit: nat, failures: int, gains: seq<nat>): nat
    decreases gains
  {
    if missing <= 0 || gains == [] then 0
    else if gains[0] >= missing then 1
    else
      var next := UpdateRetryCount(failures, limit, gains[0] > 0);
      if next < 0 then 1 else 1 + Requests(missing - gains[0], limit, next, gains[1..])
  }

  /** No sequence of outcomes leads to more requests than bytes * limit + 1. */
  lemma {:induction false} RequestsBounded(missing: int, limit: nat, failures: int, gains: seq<nat>)
    requires 0 <= failures <= limit
    ensures Requests(missing, limit, failures, gains) <= Budget(missing, limit, failures)
    ensures failures == 0 && missing > 0 ==> Budget(missing, limit, failures) == missing * limit + 1
    decreases gains
  {
    if missing > 0 {
      assert (missing - 1) * limit >= 0;
      assert missing * limit == (missing - 1) * limit + limit;
      if gains != [] && gains[0] < missing {
        var next := UpdateRetryCount(failures, limit, gains[0] > 0);
        if next >= 0 {
          BudgetFalls(missing, limit, failures, missing - gains[0]);
          RequestsBounded(missing - gains[0], limit, next, gains[1..]);
        }
      }
    }
  }

  // The worst server: as many empty answers as allowed, then a single byte.
  function Grudging(missing: nat, limit: nat, failures: nat): seq<nat>
    requires 0 < limit && failures <= limit
    decreases missing, limit - failures
  {
    if missing == 0 then []
    else if failures < limit then [0] + Grudging(missing, limit, failures + 1)
    else if missing == 1 then [0]
    else [1] + Grudging(missing - 1, limit, 1)
  }

  /** The bound is attained. */
  lemma {:induction false} BoundIsTight(missing: nat, limit: nat, failures: nat)
    requires 0 < limit && failures <= limit && 0 < missing
    ensures Requests(missing, limit, failures, Grudging(missing, limit, failures)) == Budget(missing, limit, failures)
    decreases missing, limit - failures
  {
    var gains := Grudging(missing, limit, failures);
    if failures < limit {
      BoundIsTight(missing, limit, failures + 1);
      assert gains[0] == 0 && gains[1..] == Grudging(missing, limit, failures + 1);
    } else if missing > 1 {
      BoundIsTight(missing - 1, limit, 1);
      assert gains[0] == 1 && gains[1..] == Grudging(missing - 1, limit, 1);
      assert (missing - 1) * limit == (missing - 2) * limit + limit;
    } else {
      assert (missing - 1) * limit == 0;
    }
  }

  // Attempts that all failed with a retry left, and what they leave missing and counted.
  ghost predicate Going(missing: int, limit: nat, failures: int, gains: seq<nat>, left: int, counted: int)
    decreases gains
  {
    if gains == [] then left == missing && counted == failures
    else
      var next := UpdateRetryCount(failures, limit, gains[0] > 0);
      gains[0] < missing && next >= 0 && Going(missing - gains[0], limit, next, gains[1..], left, counted)
  }

  lemma {:induction false} GoingOn(missing: int, limit: nat, failures: int, gains: seq<nat>, left: int, counted: int, gain: nat)
    requires Going(missing, limit, failures, gains, left, counted) && left > 0
    ensures Requests(missing, limit, failures, gains + [gain]) == |gains| + 1
    ensures var next := UpdateRetryCount(counted, limit, gain > 0);
            gain < left && next >= 0 ==> Going(missing, limit, failures, gains + [gain], left - gain, next)
    decreases gains
  {
    var more := gains + [gain];
    if gains != [] {
      assert more[1..] == gains[1..] + [gain];
      GoingOn(missing - gains[0], limit, UpdateRetryCount(failures, limit, gains[0] > 0), gains[1..], left, counted, gain);
    } else {
      assert more[1..] == [];
    }
  }

  lemma {:induction false} GoingCount(missing: int, limit: nat, failures: int, gains: seq<nat>, left: int, counted: int)
    requires Going(missing, limit, failures, gains, left, counted)
    ensures Requests(missing, limit, failures, gains) == |gains|
    decreases gains
  {
    if gains != [] {
      GoingCount(missing - gains[0], limit, UpdateRetryCount(failures, limit, gains[0] > 0), gains[1..], left, counted);
    }
  }

  // ---- A whole download of a part, as a function of what the requests lead to ----

  datatype Fate = Fate(verdict: Verdict, progress: int, requests: nat)

  lemma {:induction false} NoBytes(missing: int, limit: nat)
    requires missing >= 0
    ensures missing * limit >= 0
  {
  }

  lemma {:induction false} BudgetPositive(left: int, limit: nat, failures: int)
    requires left > 0 && 0 <= failures <= limit
    ensures Budget(left, limit, failures) >= 1
  {
    NoBytes(left - 1, limit);
  }

  // From request number i on, after this many failures in a row.
  ghost function Downloaded(replies: nat -> Response, i: nat, progress: int, end: int, failures: int, limit: nat): Fate
    requires progress <= end + 1 && 0 <= failures <= limit
    decreases Budget(end + 1 - progress, limit, failures)
  {
    if progress > end then Fate(Complete, progress, i)
    else
      var gain, v := Gain(replies(i), progress, end), VerdictOn(replies(i), progress, end);
      var next := UpdateRetryCount(failures, limit, gain > 0);
      if v != Failed || next < 0 then Fate(v, progress + gain, i + 1)
      else
        BudgetPositive(end + 1 - progress, limit, failures);
        BudgetFalls(end + 1 - progress, limit, failures, end + 1 - progress - gain);
        Downloaded(replies, i + 1, progress + gain, end, next, limit)
  }

  // Request number n is answered with everything that is missing by then, and those before it fail
  // with a retry left: a failure after progress counts as the first, one without as one more.
  ghost predicate Served(replies: nat -> Response, i: nat, n: nat, progress: int, end: int, failures: int, limit: nat)
    decreases n - i
  {
    i <= n && progress <= end &&
    var r, gain := replies(i), Gain(replies(i), progress, end);
    if i == n then r.Body? && r.start == progress && progress + Brought(r.body) > end
    else
      && VerdictOn(r, progress, end) == Failed
      && (if gain > 0 then 1 else failures + 1) <= limit
      && Served(replies, i + 1, n, progress + gain, end, if gain > 0 then 1 else failures + 1, limit)
  }

  /** A reply that brings all that is missing, reached within the retries, completes the part. */
  lemma {:induction false} ServedCompletes(replies: nat -> Response, i: nat, n: nat, progress: int, end: int, failures: int, limit: nat)
    requires 0 <= failures <= limit && Served(replies, i, n, progress, end, failures, limit)
    ensures Downloaded(replies, i, progress, end, failures, limit) == Fate(Complete, end + 1, n + 1)
    decreases n - i
  {
    if i < n {
      var gain := Gain(replies(i), progress, end);
      ServedCompletes(replies, i + 1, n, progress + gain, end, if gain > 0 then 1 else failures + 1, limit);
    }
  }

  // Each of the requests before number n brings something and fails; number n brings the rest.
  ghost predicate Gaining(replies: nat -> Response, i: nat, n: nat, progress: int, end: int)
    decreases n - i
  {
    i <= n && progress <= end &&
    var r, gain := replies(i), Gain(replies(i), progress, end);
    if i == n then r.Body? && r.start == progress && progress + Brought(r.body) > end
    else VerdictOn(r, progress, end) == Failed && gain > 0 && Gaining(replies, i + 1, n, progress + gain, end)
  }

  lemma {:induction false} GainingServes(replies: nat -> Response, i: nat, n: nat, progress: int, end: int, failures: int, limit: nat)
    requires 0 <= failures <= limit && limit >= 1 && Gaining(replies, i, n, progress, end)
    ensures Served(replies, i, n, progress, end, failures, limit)
    decreases n - i
  {
    if i < n {
      GainingServes(replies, i + 1, n, progress + Gain(replies(i), progress, end), end, 1, limit);
    }
  }

  /** However many connections break, as long as each brings something, one retry is enough. */
  lemma {:induction false} GainingCompletes(replies: nat -> Response, i: nat, n: nat, progress: int, end: int, failures: int, limit: nat)
    requires 0 <= failures <= limit && limit >= 1 && Gaining(replies, i, n, progress, end)
    ensures Downloaded(replies, i, progress, end, failures, limit) == Fate(Complete, end + 1, n + 1)
    decreases n - i
  {
    GainingServes(replies, i, n, progress, end, failures, limit);
    ServedCompletes(replies, i, n, progress, end, failures, limit);
  }

  // Nothing came of the requests before number n.
  ghost predicate Fruitless(replies: nat -> Response, i: nat, n: nat, progress: int, end: int)
    requires progress <= end
  {
    forall k :: i <= k < n ==> VerdictOn(replies(k), progress, end) == Failed && Gain(replies(k), progress, end) == 0
  }

  /** Replies that bring nothing are made up for as long as they are no more in a row than the retries:
      then, and only then, the one that brings everything is reached. */
  lemma {:induction false} FruitlessIff(replies: nat -> Response, i: nat, n: nat, progress: int, end: int, failures: int, limit: nat)
    requires 0 <= failures <= limit && i <= n && progress <= end && Fruitless(replies, i, n, progress, end)
    requires replies(n).Body? && replies(n).start == progress && progress + Brought(replies(n).body) > end
    ensures Downloaded(replies, i, progress, end, failures, limit).verdict == Complete <==> failures + (n - i) <= limit
    decreases n - i
  {
    if i < n {
      assert VerdictOn(replies(i), progress, end) == Failed;
      if failures + 1 <= limit {
        FruitlessIff(replies, i + 1, n, progress, end, failures + 1, limit);
      }
    }
  }

  // ---- The loops ----

  // g is f with the bytes from a to b taken from the content.
  ghost predicate Filled(f: seq<Byte>, g: seq<Byte>, content: seq<Byte>, a: int, b: int) {
    0 <= a <= b <= |content| && g == Overlay(f, a, content[a..b])
  }

  lemma {:induction false} FilledNone(f: seq<Byte>, content: seq<Byte>, a: int)
    requires 0 <= a <= |content|
    ensures Filled(f, f, content, a, a)
  {
  }

  // Writing content again, or on, from inside what is filled.
  lemma {:induction false} FilledOver(f: seq<Byte>, g: seq<Byte>, content: seq<Byte>, a: int, b: int, c: int, d: int)
    requires Filled(f, g, content, a, b) && a <= c <= b && c <= d <= |content|
    ensures Filled(f, Overlay(g, c, content[c..d]), content, a, if d > b then d else b)
  {
    var e := if d > b then d else b;
    var h, want := Overlay(g, c, content[c..d]), Overlay(f, a, content[a..e]);
    assert |h| == |want|;
    assert forall j :: 0 <= j < |h| ==> h[j] == want[j];
  }

  lemma {:induction false} FlatStep(body: seq<Read>, k: nat)
    requires k < |body|
    ensures Flat(body[k..]) == (if body[k].Data? then body[k].bytes else []) + Flat(body[k + 1..])
  {
    assert body[k..][0] == body[k] && body[k..][1..] == body[k + 1..];
  }

  lemma {:induction false} NothingBrought(body: seq<Read>)
    ensures Brought(body[|body|..]) == 0 && StoppedBy(body[|body|..]) == None
  {
    assert body[|body|..] == [];
  }

  lemma {:induction false} BroughtStep(body: seq<Read>, k: nat)
    requires k < |body|
    ensures Brought(body[k..]) == if Passes(body[k]) then |body[k].bytes| + Brought(body[k + 1..]) else 0
    ensures StoppedBy(body[k..]) == if Passes(body[k]) then StoppedBy(body[k + 1..]) else Some(body[k])
  {
    assert body[k..][0] == body[k] && body[k..][1..] == body[k + 1..];
  }

  lemma {:induction false} HonestSplit(content: seq<Byte>, start: int, a: seq<Byte>, b: seq<Byte>)
    requires Honest(content, start, a + b)
    ensures Honest(content, start, a) && Honest(content, start + |a|, b)
  {
    forall j | 0 <= j < |a| && 0 <= start + j < |content|
      ensures a[j] == content[start + j]
    {
      assert (a + b)[j] == a[j];
    }
    forall j | 0 <= j < |b| && 0 <= start + |a| + j < |content|
      ensures b[j] == content[start + |a| + j]
    {
      assert (a + b)[|a| + j] == b[j];
    }
  }

  lemma {:induction false} KeptIsContent(chunk: seq<Byte>, part: Part, content: seq<Byte>, n: nat)
    requires 0 <= part.progress <= part.end < |content| && part.end > 0 && Honest(content, part.progress, chunk) && n <= |Clamp(chunk, part)|
    ensures part.progress + n <= part.end + 1 && Clamp(chunk, part)[..n] == content[part.progress..part.progress + n]
    ensures |Clamp(chunk, part)| == if part.progress + |chunk| > part.end + 1 then part.end + 1 - part.progress else |chunk|
  {
  }

  lemma {:induction false} GoingStart(missing: int, limit: nat)
    ensures Going(missing, limit, 0, [], missing, 0)
  {
  }

  class PartDownload {
    const content: seq<Byte>
    const maxRetries: int
    var part: Part
    var file: seq<Byte>
    var received: int

    ghost predicate Valid()
      reads this
    {
      0 <= part.progress <= part.end + 1 && 0 < part.end < |content|
    }

    // From position a the file has been filled with content up to `reach`, which lies behind the
    // part's progress when a write was torn, and never behind the part; nothing else has changed.
    ghost predicate Reached(f: seq<Byte>, a: int, reach: int)
      reads this
    {
      part.progress <= reach <= part.end + 1 && Filled(f, file, content, a, reach)
    }

    // The part has only moved forward, over content that is in the file and counted once.
    ghost predicate Advanced(p: Part, f: seq<Byte>, r: int)
      requires 0 <= p.progress <= p.end + 1
      reads this
    {
      && Valid() && p.progress <= part.progress && part == p.(progress := part.progress)
      && received == r + part.progress - p.progress
      && exists reach :: Reached(f, p.progress, reach)
    }

    constructor (c: seq<Byte>, retries: int, p: Part, f: seq<Byte>, r: int)
      requires 0 <= p.progress <= p.end + 1 && 0 < p.end < |c|
      ensures Valid() && content == c && maxRetries == retries && part == p && file == f && received == r
    {
      content, maxRetries, part, file, received := c, retries, p, f, r;
    }

    lemma {:induction false} Untouched()
      requires Valid()
      ensures Advanced(part, file, received)
    {
      FilledNone(file, content, part.progress);
      assert Reached(file, part.progress, part.progress);
    }

    /** One read written at its place. A torn write moves nothing but bytes of the part. */
    method CopyChunk(chunk: seq<Byte>, torn: Option<nat>, ghost p: Part, ghost f: seq<Byte>, ghost r: int) returns (ok: bool)
      requires 0 <= p.progress <= p.end + 1 && Advanced(p, f, r)
      requires part.progress <= part.end && Honest(content, part.progress, chunk)
      modifies this
      ensures Advanced(p, f, r) && ok == torn.None?
      ensures part.progress == if torn.Some? then old(part.progress)
                               else if old(part.progress) + |chunk| > part.end + 1 then part.end + 1
                               else old(part.progress) + |chunk|
    {
      hide Filled, Overlay, Honest, Clamp;
      ghost var reach :| Reached(f, p.progress, reach);
      var kept := Clamp(chunk, part);
      var written := if torn.Some? && torn.value < |kept| then torn.value else |kept|;
      KeptIsContent(chunk, part, content, written);
      FilledOver(f, file, content, p.progress, reach, part.progress, part.progress + written);
      file := Overlay(file, part.progress, kept[..written]);
      ghost var further := if part.progress + written > reach then part.progress + written else reach;
      ok := torn.None?;
      if ok {
        part := part.(progress := part.progress + |kept|);
        received := received + |kept|;
      }
      assert Reached(f, p.progress, further);
    }

    /** Copies one response. One that is accepted moves the part on by the bytes of its reads up to
        the first that tears, breaks or cancels, as far as the part goes; nothing else does. */
    method CopyPart(response: Response, ghost p: Part, ghost f: seq<Byte>, ghost r: int) returns (v: Verdict)
      requires 0 <= p.progress <= p.end + 1 && Advanced(p, f, r) && part.progress <= part.end
      requires response.Body? ==> Honest(content, response.start, Flat(response.body))
      modifies this
      ensures Advanced(p, f, r)
      ensures !response.Body? || response.start != old(part).progress ==>
                part == old(part) && file == old(file) && v == if response.Cancelled? then Stopped else Failed
      ensures response.Body? && response.start == old(part).progress ==>
                && part.progress == (if old(part).progress + Brought(response.body) > part.end then part.end + 1
                                     else old(part).progress + Brought(response.body))
                && v == (if part.progress == part.end + 1 then Complete
                         else if StoppedBy(response.body) == Some(Cancels) then Stopped else Failed)
    {
      hide Filled, Flat, Honest, Brought, StoppedBy;
      if response.Cancelled? { return Stopped; }
      if !response.Body? || response.start != part.progress { return Failed; }
      var body := response.body;
      ghost var start := part.progress;
      assert body[0..] == body;
      for k := 0 to |body|
        invariant Advanced(p, f, r) && start <= part.progress <= part.end && part.end == old(part.end)
        invariant Honest(content, part.progress, Flat(body[k..]))
        invariant Brought(body) == part.progress - start + Brought(body[k..])
        invariant StoppedBy(body) == StoppedBy(body[k..])
      {
        FlatStep(body, k);
        BroughtStep(body, k);
        match body[k]
        case Broken => return Failed;
        case Cancels => return Stopped;
        case Data(bytes, torn) =>
          HonestSplit(content, part.progress, bytes, Flat(body[k + 1..]));
          if bytes != [] {
            var ok := CopyChunk(bytes, torn, p, f, r);
            if !ok { return Failed; }
            if part.progress > part.end { return Complete; }
          }
      }
      NothingBrought(body);
      return Failed;
    }

    /** A part is requested as often as the outcomes of its attempts demand, so never more than
        bytes * MaxRetries + 1 times, and comes to what those outcomes make of it. */
    method Run(replies: nat -> Response) returns (v: Verdict, requests: nat, ghost gains: seq<nat>)
      requires Valid()
      requires forall k :: replies(k).Body? ==> Honest(content, replies(k).start, Flat(replies(k).body))
      modifies this
      ensures Advanced(old(part), old(file), old(received))
      ensures Downloaded(replies, 0, old(part).progress, old(part).end, 0, Limit(maxRetries)) == Fate(v, part.progress, requests)
      ensures v == Complete <==> part.progress == part.end + 1
      ensures requests == |gains| == Requests(old(part).end + 1 - old(part).progress, Limit(maxRetries), 0, gains)
      ensures requests <= (old(part).end + 1 - old(part).progress) * Limit(maxRetries) + 1
      ensures old(part).progress > old(part).end ==> requests == 0
    {
      hide Filled, Flat, Honest, Requests, Going, Brought, StoppedBy;
      var failures := 0;
      requests, gains := 0, [];
      ghost var limit, missing := Limit(maxRetries), part.end + 1 - part.progress;
      ghost var p, f, r := part, file, received;
      Untouched();
      GoingStart(missing, limit);
      while true
        invariant Advanced(p, f, r) && 0 <= failures <= limit && requests == |gains|
        invariant Going(missing, limit, 0, gains, part.end + 1 - part.progress, failures)
        invariant requests > 0 ==> part.progress <= part.end && missing > 0
        invariant Downloaded(replies, requests, part.progress, p.end, failures, limit) == Downloaded(replies, 0, p.progress, p.end, 0, limit)
        decreases Budget(part.end + 1 - part.progress, limit, failures)
      {
        var progress := part.progress;
        ghost var left := part.end + 1 - progress;
        GoingCount(missing, limit, 0, gains, left, failures);
        RequestsBounded(missing, limit, 0, gains);
        NoBytes(missing, limit);
        if progress > part.end { return Complete, requests, gains; }
        BudgetPositive(left, limit, failures);
        v := CopyPart(replies(requests), p, f, r);
        ghost var gain := part.progress - progress;
        assert gain == Gain(replies(requests), progress, p.end) && v == VerdictOn(replies(requests), progress, p.end);
        requests := requests + 1;
        GoingOn(missing, limit, 0, gains, left, failures, gain);
        gains := gains + [gain];
        RequestsBounded(missing, limit, 0, gains);
        if v != Failed { return; }
        var next := UpdateRetryCount(failures, maxRetries, part.progress > progress);
        if next < 0 { return; }
        BudgetFalls(left, limit, failures, left - gain);
        failures := next;
      }
    }
  }
}
