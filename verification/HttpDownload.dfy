/** The resumable multi-part download: interleaved part writers over one file, a progress record,
    cancellation, crashes and restarts, against a server that answers ranges honestly. */
module HttpDownload {
  import opened Options
  import opened Files
  import opened HttpParts

  // Where a part's goroutine stands: at the top of its retry loop, waiting for a response, reading
  // a body, about to write a chunk, having written n bytes, having moved its progress by n, or back.
  datatype Writer =
    | AtTop
    | Asking
    | Streaming(body: seq<Byte>)
    | Holding(chunk: seq<Byte>, rest: seq<Byte>)
    | Written(n: nat, rest: seq<Byte>)
    | Moved(n: nat, rest: seq<Byte>)
    | Done(ok: bool)

  datatype Phase = Idle(succeeded: bool) | Active

  // `late` are part lists of finished runs whose record goroutine has not noticed yet.
  datatype Download = Download(
    content: seq<Byte>, blockNum: int, file: seq<Byte>, record: Option<seq<Part>>,
    phase: Phase, parts: seq<Part>, writers: seq<Writer>, received: int, late: seq<seq<Part>>)

  datatype Step =
    | Begin(truncated: bool)
    | Look(i: nat)
    | Refuse(i: nat)
    | Respond(i: nat, body: seq<Byte>)
    | Fetch(i: nat, n: nat)
    | Write(i: nat)
    | WriteFails(i: nat, k: nat)
    | Move(i: nat)
    | Count(i: nat)
    | Eof(i: nat)
    | Break(i: nat)
    | Quit(i: nat)
    | Record
    | Finish(cancelled: bool)
    | LateRecord(k: nat)
    | Crash

  function Initial(content: seq<Byte>, blockNum: int, file: seq<Byte>): Download {
    Download(content, blockNum, file, None, Idle(false), [], [], 0, [])
  }

  // Bytes past the end of the content may be anything.
  ghost predicate Honest(content: seq<Byte>, start: int, body: seq<Byte>) {
    forall j :: 0 <= j < |body| && 0 <= start + j < |content| ==> body[j] == content[start + j]
  }

  ghost predicate Busy(d: Download, i: nat) {
    d.phase.Active? && i < |d.parts| && i < |d.writers|
  }

  // A response that starts elsewhere, is not a 206, or never comes is a Refuse.
  ghost predicate Enabled(d: Download, step: Step) {
    match step
    case Begin(_) => d.phase.Idle?
    case Look(i) => Busy(d, i) && d.writers[i].AtTop?
    case Refuse(i) => Busy(d, i) && d.writers[i].Asking?
    case Respond(i, body) => Busy(d, i) && d.writers[i].Asking? && Honest(d.content, d.parts[i].progress, body)
    case Fetch(i, n) =>
      && Busy(d, i) && d.writers[i].Streaming? && 0 < n <= |d.writers[i].body|
      && (d.parts[i].progress <= d.parts[i].end + 1 || d.parts[i].end <= 0)
    case Write(i) => Busy(d, i) && d.writers[i].Holding? && d.parts[i].progress >= 0
    case WriteFails(i, k) =>
      Busy(d, i) && d.writers[i].Holding? && k <= |d.writers[i].chunk| && d.parts[i].progress >= 0
    case Move(i) => Busy(d, i) && d.writers[i].Written?
    case Count(i) => Busy(d, i) && d.writers[i].Moved?
    case Eof(i) => Busy(d, i) && d.writers[i].Streaming? && d.writers[i].body == []
    case Break(i) => Busy(d, i) && d.writers[i].Streaming?
    case Quit(i) => Busy(d, i) && (d.writers[i].AtTop? || d.writers[i].Asking? || d.writers[i].Streaming? || d.writers[i].Holding?)
    case Record => d.phase.Active?
    case Finish(_) => d.phase.Active? && forall i :: 0 <= i < |d.writers| ==> d.writers[i].Done?
    case LateRecord(k) => k < |d.late|
    case Crash => true
  }

  function SetWriter(d: Download, i: nat, w: Writer): Download
    requires i < |d.writers|
  {
    d.(writers := d.writers[i := w])
  }

  function Sum(parts: seq<Part>): int {
    if parts == [] then 0 else parts[0].progress - parts[0].start + Sum(parts[1..])
  }

  // What copyPart keeps of the bytes it read.
  function Clamp(chunk: seq<Byte>, p: Part): seq<Byte>
    requires p.progress <= p.end + 1 || p.end <= 0
  {
    if p.end > 0 && |chunk| > p.end - p.progress + 1 then chunk[..p.end - p.progress + 1] else chunk
  }

  function BeginParts(d: Download): seq<Part> {
    if d.record.Some? && d.record.value != [] then d.record.value else Generate(|d.content|, d.blockNum, true)
  }

  function Apply(d: Download, step: Step): Download
    requires Enabled(d, step)
  {
    match step
    case Begin(truncated) =>
      var parts := BeginParts(d);
      var restored := d.record.Some? && d.record.value != [];
      d.(phase := Active, parts := parts, writers := seq(|parts|, _ => AtTop), received := Sum(parts),
         file := if !restored && |d.content| > 0 && truncated then Resize(d.file, |d.content|) else d.file)
    case Look(i) =>
      var p := d.parts[i];
      SetWriter(d, i, if p.end != UNKNOWN_SIZE && p.progress > p.end then Done(true) else Asking)
    case Refuse(i) => SetWriter(d, i, AtTop)
    case Respond(i, body) => SetWriter(d, i, Streaming(body))
    case Fetch(i, n) =>
      var body := d.writers[i].body;
      SetWriter(d, i, Holding(Clamp(body[..n], d.parts[i]), body[n..]))
    case Write(i) =>
      var w := d.writers[i];
      SetWriter(d, i, Written(|w.chunk|, w.rest)).(file := Overlay(d.file, d.parts[i].progress, w.chunk))
    case WriteFails(i, k) =>
      SetWriter(d, i, AtTop).(file := Overlay(d.file, d.parts[i].progress, d.writers[i].chunk[..k]))
    case Move(i) =>
      var w := d.writers[i];
      SetWriter(d, i, Moved(w.n, w.rest)).(parts := d.parts[i := d.parts[i].(progress := d.parts[i].progress + w.n)])
    case Count(i) =>
      var w, p := d.writers[i], d.parts[i];
      SetWriter(d, i, if p.end > 0 && p.progress > p.end then Done(true) else Streaming(w.rest))
        .(received := d.received + w.n)
    case Eof(i) =>
      var p := d.parts[i];
      SetWriter(d, i, if p.end != UNKNOWN_SIZE && p.progress <= p.end then AtTop else Done(true))
    case Break(i) => SetWriter(d, i, AtTop)
    case Quit(i) => SetWriter(d, i, Done(false))
    case Record => d.(record := Some(d.parts))
    case Finish(cancelled) =>
      var ok := !cancelled && forall i :: 0 <= i < |d.writers| ==> d.writers[i].ok;
      d.(phase := Idle(ok), record := if ok then None else d.record, late := d.late + [d.parts])
    case LateRecord(k) => d.(record := Some(d.late[k]))
    case Crash => d.(phase := Idle(false), late := [])
  }

  // ---- The invariant ----

  ghost predicate Progressive(parts: seq<Part>) {
    forall i :: 0 <= i < |parts| ==> parts[i].start <= parts[i].progress <= parts[i].end + 1 && parts[i].end > 0
  }

  ghost predicate Right(file: seq<Byte>, content: seq<Byte>, j: int) {
    0 <= j < |file| && j < |content| && file[j] == content[j]
  }

  ghost predicate Matches(file: seq<Byte>, content: seq<Byte>, from: int, to: int) {
    forall j :: from <= j < to ==> Right(file, content, j)
  }

  ghost predicate Correct(parts: seq<Part>, file: seq<Byte>, content: seq<Byte>) {
    forall i :: 0 <= i < |parts| ==> Matches(file, content, parts[i].start, parts[i].progress)
  }

  // A part list that may be trusted on restart.
  ghost predicate Valid(parts: seq<Part>, file: seq<Byte>, content: seq<Byte>) {
    Tiles(parts, |content|) && Progressive(parts) && Correct(parts, file, content)
  }

  ghost predicate RestOk(content: seq<Byte>, p: Part, at: int, rest: seq<Byte>) {
    at <= p.end ==> Honest(content, at, rest)
  }

  ghost predicate WriterOk(p: Part, w: Writer, file: seq<Byte>, content: seq<Byte>) {
    match w
    case AtTop => true
    case Asking => p.progress <= p.end
    case Streaming(body) => p.progress <= p.end && Honest(content, p.progress, body)
    case Holding(chunk, rest) =>
      && chunk != [] && p.progress + |chunk| <= p.end + 1
      && Honest(content, p.progress, chunk) && RestOk(content, p, p.progress + |chunk|, rest)
    case Written(n, rest) =>
      && n > 0 && p.progress + n <= p.end + 1
      && Matches(file, content, p.progress, p.progress + n) && RestOk(content, p, p.progress + n, rest)
    case Moved(n, rest) => RestOk(content, p, p.progress, rest)
    case Done(ok) => ok ==> p.progress == p.end + 1
  }

  // Bytes already counted in a part's progress but not yet in `received`.
  function Pending(writers: seq<Writer>): nat {
    if writers == [] then 0 else (if writers[0].Moved? then writers[0].n else 0) + Pending(writers[1..])
  }

  ghost predicate Running(d: Download) {
    && Valid(d.parts, d.file, d.content) && |d.writers| == |d.parts|
    && (forall i :: 0 <= i < |d.parts| ==> WriterOk(d.parts[i], d.writers[i], d.file, d.content))
    && d.received + Pending(d.writers) == Sum(d.parts)
  }

  // At least two bytes a part: the sizes the range path is meant for.
  ghost predicate Roomy(d: Download) {
    |d.content| > 0 && |d.content| >= 2 * Blocks(|d.content|, d.blockNum)
  }

  ghost predicate Inv(d: Download) {
    && Roomy(d)
    && (d.phase.Active? ==> Running(d))
    && (d.phase == Idle(true) ==> d.received == |d.content| && Matches(d.file, d.content, 0, |d.content|))
    && (d.record.Some? ==> Valid(d.record.value, d.file, d.content))
    && (forall k :: 0 <= k < |d.late| ==> Valid(d.late[k], d.file, d.content))
  }

  // ---- Sums ----

  lemma {:induction false} SumUpdate(parts: seq<Part>, i: nat, p: Part)
    requires i < |parts|
    ensures Sum(parts[i := p]) == Sum(parts) - (parts[i].progress - parts[i].start) + (p.progress - p.start)
  {
    if i > 0 {
      SumUpdate(parts[1..], i - 1, p);
      assert parts[i := p][1..] == parts[1..][i - 1 := p];
    } else {
      assert parts[i := p][1..] == parts[1..];
    }
  }

  function Due(w: Writer): nat {
    if w.Moved? then w.n else 0
  }

  lemma {:induction false} PendingUpdate(writers: seq<Writer>, i: nat, w: Writer)
    requires i < |writers|
    ensures Pending(writers[i := w]) == Pending(writers) - Due(writers[i]) + Due(w)
  {
    if i > 0 {
      PendingUpdate(writers[1..], i - 1, w);
      assert writers[i := w][1..] == writers[1..][i - 1 := w];
    } else {
      assert writers[i := w][1..] == writers[1..];
    }
  }

  lemma {:induction false} PendingNone(writers: seq<Writer>)
    requires forall i :: 0 <= i < |writers| ==> Due(writers[i]) == 0
    ensures Pending(writers) == 0
  {
    if writers != [] {
      PendingNone(writers[1..]);
    }
  }

  lemma {:induction false} SumComplete(parts: seq<Part>, size: int)
    requires parts != [] && parts[|parts| - 1].end == size - 1
    requires forall i :: 0 < i < |parts| ==> parts[i].start == parts[i - 1].end + 1
    requires forall i :: 0 <= i < |parts| ==> parts[i].progress == parts[i].end + 1
    ensures Sum(parts) == size - parts[0].start
  {
    if |parts| > 1 {
      SumComplete(parts[1..], size);
    } else {
      assert parts[1..] == [];
    }
  }

  // ---- Writes only add content ----

  // g holds everything right that f holds right.
  ghost predicate Kept(f: seq<Byte>, g: seq<Byte>, content: seq<Byte>) {
    forall j :: Right(f, content, j) ==> Right(g, content, j)
  }

  // ... and is at least as long.
  ghost predicate Better(f: seq<Byte>, g: seq<Byte>, content: seq<Byte>) {
    |f| <= |g| && Kept(f, g, content)
  }

  lemma {:induction false} KeptMatches(f: seq<Byte>, g: seq<Byte>, content: seq<Byte>, from: int, to: int)
    requires Kept(f, g, content) && Matches(f, content, from, to)
    ensures Matches(g, content, from, to)
  {
  }

  lemma {:induction false} BetterValid(parts: seq<Part>, f: seq<Byte>, g: seq<Byte>, content: seq<Byte>)
    requires Better(f, g, content) && Valid(parts, f, content)
    ensures Valid(parts, g, content)
  {
  }

  lemma {:induction false} BetterWriter(p: Part, w: Writer, f: seq<Byte>, g: seq<Byte>, content: seq<Byte>)
    requires Better(f, g, content) && WriterOk(p, w, f, content)
    ensures WriterOk(p, w, g, content)
  {
  }

  lemma {:induction false} OverlayBetter(f: seq<Byte>, at: nat, chunk: seq<Byte>, content: seq<Byte>)
    requires Honest(content, at, chunk)
    ensures Better(f, Overlay(f, at, chunk), content)
    ensures at + |chunk| <= |content| ==> Matches(Overlay(f, at, chunk), content, at, at + |chunk|)
  {
  }

  lemma {:induction false} BetterAll(d: Download, g: seq<Byte>)
    requires Inv(d) && Better(d.file, g, d.content)
    ensures Inv(d.(file := g))
  {
    if d.phase == Idle(true) { KeptMatches(d.file, g, d.content, 0, |d.content|); }
    hide Valid, WriterOk, Better;
    if d.phase.Active? {
      BetterValid(d.parts, d.file, g, d.content);
      forall i | 0 <= i < |d.parts|
        ensures WriterOk(d.parts[i], d.writers[i], g, d.content)
      {
        BetterWriter(d.parts[i], d.writers[i], d.file, g, d.content);
      }
    }
    if d.record.Some? { BetterValid(d.record.value, d.file, g, d.content); }
    forall k | 0 <= k < |d.late|
      ensures Valid(d.late[k], g, d.content)
    {
      BetterValid(d.late[k], d.file, g, d.content);
    }
  }

  // One writer changed, nothing else.
  lemma {:induction false} WriterChanged(d: Download, i: nat, w: Writer, received: int)
    requires Inv(d) && Busy(d, i) && WriterOk(d.parts[i], w, d.file, d.content)
    requires received - d.received == Due(d.writers[i]) - Due(w)
    ensures Inv(SetWriter(d, i, w).(received := received))
  {
    hide Valid, WriterOk;
    PendingUpdate(d.writers, i, w);
  }

  lemma {:induction false} PartBounds(d: Download, i: nat)
    requires Inv(d) && Busy(d, i)
    ensures var p := d.parts[i];
            && 0 <= p.start <= p.progress <= p.end + 1 && 0 < p.end < |d.content|
            && WriterOk(p, d.writers[i], d.file, d.content)
  {
    TilesCover(d.parts, |d.content|, d.parts[i].start);
    TilesCover(d.parts, |d.content|, d.parts[i].end);
    assert Within(d.parts[i], d.parts[i].start) && Within(d.parts[i], d.parts[i].end);
  }

  lemma {:induction false} FreshParts(d: Download)
    requires Roomy(d)
    ensures Valid(Generate(|d.content|, d.blockNum, true), d.file, d.content)
  {
    var parts := Generate(|d.content|, d.blockNum, true);
    GenerateTiles(|d.content|, d.blockNum);
    ZeroEndIff(|d.content|, d.blockNum);
    forall i | 0 <= i < |parts|
      ensures parts[i].progress == parts[i].start && parts[i].end > 0
    {
      assert parts[i] in parts;
      TilesCover(parts, |d.content|, parts[i].end);
      assert Within(parts[i], parts[i].end);
    }
  }

  lemma {:induction false} ValidNonempty(parts: seq<Part>, file: seq<Byte>, content: seq<Byte>)
    requires Valid(parts, file, content)
    ensures parts != []
  {
  }

  // Truncating to the final size loses no byte that was right.
  lemma {:induction false} ResizeBetter(f: seq<Byte>, content: seq<Byte>)
    ensures Kept(f, Resize(f, |content|), content)
  {
  }

  lemma {:induction false} KeptValid(parts: seq<Part>, f: seq<Byte>, g: seq<Byte>, content: seq<Byte>)
    requires Kept(f, g, content) && Valid(parts, f, content)
    ensures Valid(parts, g, content)
  {
  }

  lemma {:induction false} BetterAllOrSame(d: Download, g: seq<Byte>)
    requires Inv(d) && d.phase.Idle? && Kept(d.file, g, d.content)
    ensures Inv(d.(file := g))
  {
    if d.phase == Idle(true) { KeptMatches(d.file, g, d.content, 0, |d.content|); }
    hide Valid, Kept;
    if d.record.Some? { KeptValid(d.record.value, d.file, g, d.content); }
    forall k | 0 <= k < |d.late|
      ensures Valid(d.late[k], g, d.content)
    {
      KeptValid(d.late[k], d.file, g, d.content);
    }
  }

  lemma {:induction false} BeginKeeps(d: Download, truncated: bool)
    requires Inv(d) && Enabled(d, Begin(truncated))
    ensures Inv(Apply(d, Begin(truncated)))
  {
    hide Valid, Generate, Blocks;
    var n := Apply(d, Begin(truncated));
    var g := n.file;
    if d.record.Some? { ValidNonempty(d.record.value, d.file, d.content); }
    if g != d.file {
      ResizeBetter(d.file, d.content);
    }
    BetterAllOrSame(d, g);
    FreshParts(d.(file := g));
    PendingNone(n.writers);
    assert Running(n);
  }

  lemma {:induction false} FetchKeeps(d: Download, i: nat, n: nat)
    requires Inv(d) && Enabled(d, Fetch(i, n))
    ensures Inv(Apply(d, Fetch(i, n)))
  {
    hide Inv;
    PartBounds(d, i);
    var p, body := d.parts[i], d.writers[i].body;
    var chunk := Clamp(body[..n], p);
    assert WriterOk(p, Holding(chunk, body[n..]), d.file, d.content);
    WriterChanged(d, i, Holding(chunk, body[n..]), d.received);
  }

  lemma {:induction false} WriteKeeps(d: Download, i: nat)
    requires Inv(d) && Enabled(d, Write(i))
    ensures Inv(Apply(d, Write(i)))
  {
    hide Inv;
    PartBounds(d, i);
    var p, w := d.parts[i], d.writers[i];
    OverlayBetter(d.file, p.progress, w.chunk, d.content);
    var d1 := d.(file := Overlay(d.file, p.progress, w.chunk));
    BetterAll(d, d1.file);
    WriterChanged(d1, i, Written(|w.chunk|, w.rest), d.received);
  }

  lemma {:induction false} WriteFailsKeeps(d: Download, i: nat, k: nat)
    requires Inv(d) && Enabled(d, WriteFails(i, k))
    ensures Inv(Apply(d, WriteFails(i, k)))
  {
    hide Inv;
    PartBounds(d, i);
    var p, w := d.parts[i], d.writers[i];
    OverlayBetter(d.file, p.progress, w.chunk[..k], d.content);
    var d1 := d.(file := Overlay(d.file, p.progress, w.chunk[..k]));
    BetterAll(d, d1.file);
    WriterChanged(d1, i, AtTop, d.received);
  }

  lemma {:induction false} MovedValid(parts: seq<Part>, i: nat, p: Part, file: seq<Byte>, content: seq<Byte>)
    requires Valid(parts, file, content) && i < |parts|
    requires p == parts[i].(progress := p.progress) && parts[i].progress <= p.progress <= p.end + 1
    requires Matches(file, content, parts[i].progress, p.progress)
    ensures Valid(parts[i := p], file, content)
  {
  }

  lemma {:induction false} WrittenFacts(p: Part, w: Writer, file: seq<Byte>, content: seq<Byte>)
    requires w.Written? && WriterOk(p, w, file, content)
    ensures w.n > 0 && p.progress + w.n <= p.end + 1 && Matches(file, content, p.progress, p.progress + w.n)
    ensures WriterOk(p.(progress := p.progress + w.n), Moved(w.n, w.rest), file, content)
  {
  }

  lemma {:induction false} MoveKeeps(d: Download, i: nat)
    requires Inv(d) && Enabled(d, Move(i))
    ensures Inv(Apply(d, Move(i)))
  {
    PartBounds(d, i);
    var p, w := d.parts[i], d.writers[i];
    var q := p.(progress := p.progress + w.n);
    var n := d.(parts := d.parts[i := q], writers := d.writers[i := Moved(w.n, w.rest)]);
    assert Apply(d, Move(i)) == n;
    hide Apply, Enabled, Valid, WriterOk, Matches, Sum, Pending, Blocks;
    WrittenFacts(p, w, d.file, d.content);
    MovedValid(d.parts, i, q, d.file, d.content);
    SumUpdate(d.parts, i, q);
    PendingUpdate(d.writers, i, Moved(w.n, w.rest));
    assert Running(n);
  }

  lemma {:induction false} AllComplete(parts: seq<Part>, file: seq<Byte>, content: seq<Byte>)
    requires Valid(parts, file, content)
    requires forall i :: 0 <= i < |parts| ==> parts[i].progress == parts[i].end + 1
    ensures |file| >= |content| && file[..|content|] == content && Sum(parts) == |content|
    ensures Matches(file, content, 0, |content|)
  {
    SumComplete(parts, |content|);
    forall j | 0 <= j < |content|
      ensures Right(file, content, j)
    {
      TilesCover(parts, |content|, j);
      var i :| 0 <= i < |parts| && Within(parts[i], j);
      assert Matches(file, content, parts[i].start, parts[i].progress);
    }
    if |content| > 0 { assert Right(file, content, |content| - 1); }
    forall j | 0 <= j < |content|
      ensures file[..|content|][j] == content[j]
    {
      assert Right(file, content, j);
    }
  }

  /** A run that returns success leaves the whole content at the front of the file and has counted
      exactly its length; a file no longer than that is then equal to the content. */
  lemma {:induction false} SuccessIsComplete(d: Download, cancelled: bool)
    requires Inv(d) && Enabled(d, Finish(cancelled)) && Apply(d, Finish(cancelled)).phase == Idle(true)
    ensures var n := Apply(d, Finish(cancelled));
            && |n.file| >= |n.content| && n.file[..|n.content|] == n.content
            && n.received == |n.content| && Matches(n.file, n.content, 0, |n.content|) && n.record.None?
            && (|n.file| <= |n.content| ==> n.file == n.content)
  {
    hide Valid;
    forall i | 0 <= i < |d.parts|
      ensures d.parts[i].progress == d.parts[i].end + 1
    {
      assert d.writers[i].Done? && d.writers[i].ok;
      assert WriterOk(d.parts[i], d.writers[i], d.file, d.content);
    }
    PendingNone(d.writers);
    AllComplete(d.parts, d.file, d.content);
    if |d.file| <= |d.content| {
      assert d.file == d.file[..|d.content|];
    }
  }

  lemma {:induction false} WholeKeeps(d: Download, step: Step)
    requires Inv(d) && Enabled(d, step) && (step.Record? || step.Finish? || step.LateRecord? || step.Crash?)
    ensures Inv(Apply(d, step))
  {
    hide Valid, WriterOk;
    if step.Finish? && Apply(d, step).phase == Idle(true) {
      SuccessIsComplete(d, step.cancelled);
    }
  }

  // The steps that only change what one writer is doing.
  lemma {:induction false} PlainKeeps(d: Download, step: Step, i: nat)
    requires Inv(d) && Enabled(d, step)
    requires step == Look(i) || step == Refuse(i) || (step.Respond? && step.i == i) || step == Count(i)
             || step == Eof(i) || step == Break(i) || step == Quit(i)
    ensures Inv(Apply(d, step))
  {
    hide Inv;
    PartBounds(d, i);
    var n := Apply(d, step);
    assert WriterOk(d.parts[i], n.writers[i], d.file, d.content);
    WriterChanged(d, i, n.writers[i], n.received);
    assert n == SetWriter(d, i, n.writers[i]).(received := n.received);
  }

  /** Every step keeps the invariant. */
  lemma {:induction false} StepKeeps(d: Download, step: Step)
    requires Inv(d) && Enabled(d, step)
    ensures Inv(Apply(d, step))
  {
    hide Inv, WriterOk, Valid;
    match step
    case Begin(truncated) => BeginKeeps(d, truncated);
    case Fetch(i, n) => FetchKeeps(d, i, n);
    case Write(i) => WriteKeeps(d, i);
    case WriteFails(i, k) => WriteFailsKeeps(d, i, k);
    case Move(i) => MoveKeeps(d, i);
    case Look(i) => PlainKeeps(d, step, i);
    case Refuse(i) => PlainKeeps(d, step, i);
    case Respond(i, _) => PlainKeeps(d, step, i);
    case Count(i) => PlainKeeps(d, step, i);
    case Eof(i) => PlainKeeps(d, step, i);
    case Break(i) => PlainKeeps(d, step, i);
    case Quit(i) => PlainKeeps(d, step, i);
    case Record => WholeKeeps(d, step);
    case Finish(_) => WholeKeeps(d, step);
    case LateRecord(_) => WholeKeeps(d, step);
    case Crash => WholeKeeps(d, step);
  }

  // ---- Runs ----

  ghost predicate Runs(d: Download, steps: seq<Step>)
    decreases steps
  {
    steps == [] || (Enabled(d, steps[0]) && Runs(Apply(d, steps[0]), steps[1..]))
  }

  ghost function End(d: Download, steps: seq<Step>): Download
    requires Runs(d, steps)
    decreases steps
  {
    if steps == [] then d else End(Apply(d, steps[0]), steps[1..])
  }

  lemma {:induction false} RunKeeps(d: Download, steps: seq<Step>)
    requires Inv(d) && Runs(d, steps)
    ensures Inv(End(d, steps)) && End(d, steps).content == d.content
    decreases steps
  {
    hide Inv, Enabled;
    if steps != [] {
      StepKeeps(d, steps[0]);
      RunKeeps(Apply(d, steps[0]), steps[1..]);
    }
  }

  /** After any interleaving of writers, records, failures, cancellations, crashes and restarts:
      every part satisfies Start <= Progress <= End+1, and the file holds the content on every
      [Start, Progress), for the live parts and for the saved record alike. */
  lemma {:induction false} ProgressIsTrue(content: seq<Byte>, blockNum: int, file: seq<Byte>, steps: seq<Step>)
    requires |content| > 0 && |content| >= 2 * Blocks(|content|, blockNum)
    requires Runs(Initial(content, blockNum, file), steps)
    ensures var d := End(Initial(content, blockNum, file), steps);
            && (d.phase.Active? ==> Valid(d.parts, d.file, content))
            && (d.record.Some? ==> Valid(d.record.value, d.file, content))
  {
    RunKeeps(Initial(content, blockNum, file), steps);
  }

  lemma {:induction false} MatchesWhole(file: seq<Byte>, content: seq<Byte>)
    requires Matches(file, content, 0, |content|)
    ensures |file| >= |content| && file[..|content|] == content
  {
    if |content| > 0 { assert Right(file, content, |content| - 1); }
    forall j | 0 <= j < |content| ensures file[..|content|][j] == content[j] { assert Right(file, content, j); }
  }

  /** Over whole runs: whatever was cancelled, crashed or failed before, when a run has returned
      success the content is in the file and has been counted once. */
  lemma {:induction false} SuccessfulRunIsComplete(content: seq<Byte>, blockNum: int, file: seq<Byte>, steps: seq<Step>)
    requires |content| > 0 && |content| >= 2 * Blocks(|content|, blockNum)
    requires Runs(Initial(content, blockNum, file), steps)
    ensures var d := End(Initial(content, blockNum, file), steps);
            d.phase == Idle(true) ==>
              |d.file| >= |content| && d.file[..|content|] == content && d.received == |content|
  {
    RunKeeps(Initial(content, blockNum, file), steps);
    var d := End(Initial(content, blockNum, file), steps);
    if d.phase == Idle(true) { MatchesWhole(d.file, d.content); }
  }

  /** What a run records is what the next one restores from the bytes on disk. */
  lemma {:induction false} RecordIsRestored(d: Download)
    requires Inv(d) && d.record.Some? && |d.content| < 0x8000_0000_0000_0000
    ensures (forall p :: p in d.record.value ==> Fits(p)) && Restore(Some(Encode(d.record.value))) == d.record
  {
    var parts := d.record.value;
    assert Valid(parts, d.file, d.content);
    forall p | p in parts ensures Fits(p) {
      var i :| 0 <= i < |parts| && parts[i] == p;
      TilesCover(parts, |d.content|, p.start);
      TilesCover(parts, |d.content|, p.end);
      assert Within(p, p.start) && Within(p, p.end);
    }
    RecordRoundTrip(parts);
  }

  lemma {:induction false} RoomyContent(d: Download)
    requires Inv(d)
    ensures |d.content| > 0
  {
  }

  /** Once the file is no longer than the content (a successful preallocation makes it so) it stays so. */
  lemma {:induction false} LengthStays(d: Download, step: Step)
    requires Inv(d) && Enabled(d, step)
    ensures |d.file| <= |d.content| ==> |Apply(d, step).file| <= |d.content|
    ensures step.Begin? && step.truncated && d.record.None? ==> |Apply(d, step).file| == |d.content|
  {
    hide Inv, Valid;
    if step.Write? { PartBounds(d, step.i); }
    if step.WriteFails? { PartBounds(d, step.i); }
    if step.Begin? { RoomyContent(d); }
  }

  lemma {:induction false} LengthStaysOverRun(d: Download, steps: seq<Step>)
    requires Inv(d) && Runs(d, steps) && |d.file| <= |d.content|
    ensures |End(d, steps).file| <= |End(d, steps).content|
    decreases steps
  {
    hide Inv, Enabled;
    if steps != [] {
      StepKeeps(d, steps[0]);
      LengthStays(d, steps[0]);
      LengthStaysOverRun(Apply(d, steps[0]), steps[1..]);
    }
  }

  /** A write never leaves its own part: every other byte of the file keeps its value, and bytes the
      file grew by elsewhere are zero. */
  lemma {:induction false} WritesStayInPart(d: Download, step: Step)
    requires Inv(d) && Enabled(d, step) && (step.Write? || step.WriteFails?)
    ensures var n := Apply(d, step);
            var p := d.parts[step.i];
            && |d.file| <= |n.file|
            && forall j :: 0 <= j < |n.file| && !Within(p, j) ==> n.file[j] == if j < |d.file| then d.file[j] else 0
  {
    hide Inv, Valid;
    PartBounds(d, step.i);
  }
}
