/** The range path on files with fewer than two bytes a part. The first part then ends at byte 0,
    which the program also uses for "unknown size", and a run can succeed without every byte. */
module HttpSmallFiles {
  import opened Options
  import opened Files
  import opened HttpParts
  import opened HttpDownload

  lemma {:induction false} RunsJoin(d: Download, a: seq<Step>, b: seq<Step>)
    requires Runs(d, a) && Runs(End(d, a), b)
    ensures Runs(d, a + b) && End(d, a + b) == End(End(d, a), b)
    decreases a
  {
    hide Enabled, Apply;
    if a == [] {
      assert a + b == b;
    } else {
      assert (a + b)[0] == a[0] && (a + b)[1..] == a[1..] + b;
      RunsJoin(Apply(d, a[0]), a[1..], b);
    }
  }

  // There is a run from d to n.
  ghost predicate Reaches(d: Download, n: Download) {
    exists steps :: Runs(d, steps) && End(d, steps) == n
  }

  lemma {:induction false} ReachesOne(d: Download, step: Step)
    requires Enabled(d, step)
    ensures Reaches(d, Apply(d, step))
  {
    hide Enabled, Apply;
    var steps := [step];
    assert steps[1..] == [];
    assert Runs(Apply(d, step), steps[1..]);
    assert Runs(d, steps) && End(d, steps) == Apply(d, step);
  }

  lemma {:induction false} ReachesChain(d: Download, m: Download, n: Download)
    requires Reaches(d, m) && Reaches(m, n)
    ensures Reaches(d, n)
  {
    hide Runs, End;
    var a :| Runs(d, a) && End(d, a) == m;
    var b :| Runs(m, b) && End(m, b) == n;
    RunsJoin(d, a, b);
  }

  // One more step at the end.
  lemma {:induction false} ReachesMore(d: Download, m: Download, step: Step)
    requires Reaches(d, m) && Enabled(m, step)
    ensures Reaches(d, Apply(m, step))
  {
    hide Reaches, Enabled, Apply;
    ReachesOne(m, step);
    ReachesChain(d, m, Apply(m, step));
  }

  // A success with a file that is not the content, and not every byte counted.
  ghost predicate CutShort(d: Download) {
    d.phase == Idle(true) && d.received < |d.content| && d.file != d.content
  }

  // The first k parts have returned without error, the first of them with nothing downloaded.
  ghost predicate Half(d: Download, k: nat) {
    && d.phase.Active? && |d.writers| == |d.parts| && k <= |d.parts|
    && Tiles(d.parts, |d.content|) && d.received == Sum(d.parts)
    && d.parts[0].end == 0 && d.parts[0].progress == 0
    && d.file != [] && d.file[0] == 0
    && (forall i :: 0 <= i < |d.parts| ==> d.parts[i].progress <= d.parts[i].end + 1)
    && (forall i :: 0 <= i < k ==> d.writers[i] == Done(true))
    && (forall i :: k <= i < |d.parts| ==> d.writers[i] == AtTop && d.parts[i].progress == d.parts[i].start)
  }

  // An empty response to the part that ends at 0 counts as complete.
  lemma {:induction false} EmptyFirst(d: Download)
    requires Half(d, 0)
    ensures Half(SetWriter(d, 0, Done(true)), 1) && Reaches(d, SetWriter(d, 0, Done(true)))
  {
    hide Reaches, Sum;
    var d1 := SetWriter(d, 0, Asking);
    var d2 := SetWriter(d, 0, Streaming([]));
    assert Apply(d, Look(0)) == d1;
    ReachesOne(d, Look(0));
    assert Apply(d1, Respond(0, [])) == d2;
    ReachesMore(d, d1, Respond(0, []));
    assert Apply(d2, Eof(0)) == SetWriter(d, 0, Done(true));
    ReachesMore(d, d2, Eof(0));
  }

  function Fetched(d: Download, k: nat): Download
    requires k < |d.parts| && k < |d.writers| && 0 <= d.parts[k].start <= d.parts[k].end < |d.content|
  {
    var p := d.parts[k];
    var body := d.content[p.start..p.end + 1];
    d.(writers := d.writers[k := Done(true)], parts := d.parts[k := p.(progress := p.end + 1)],
       file := Overlay(d.file, p.start, body), received := d.received + |body|)
  }

  // From the whole part in hand to the part done.
  lemma {:induction false} HeldPart(d: Download, d3: Download, k: nat)
    requires d.phase.Active? && k < |d.parts| && |d.writers| == |d.parts|
    requires d.parts[k].progress == d.parts[k].start
    requires 0 <= d.parts[k].start <= d.parts[k].end < |d.content| && d.parts[k].end > 0
    requires d3 == SetWriter(d, k, Holding(d.content[d.parts[k].start..d.parts[k].end + 1], []))
    ensures Reaches(d3, Fetched(d, k))
  {
    hide Reaches, Overlay;
    var p := d.parts[k];
    var body := d.content[p.start..p.end + 1];
    var d4 := SetWriter(d, k, Written(|body|, [])).(file := Overlay(d.file, p.start, body));
    assert Apply(d3, Write(k)) == d4;
    ReachesOne(d3, Write(k));
    var d5 := SetWriter(d4, k, Moved(|body|, [])).(parts := d.parts[k := p.(progress := p.end + 1)]);
    assert Apply(d4, Move(k)) == d5;
    ReachesMore(d3, d4, Move(k));
    assert Apply(d5, Count(k)) == Fetched(d, k);
    ReachesMore(d3, d5, Count(k));
  }

  lemma {:induction false} WholePart(d: Download, k: nat)
    requires d.phase.Active? && k < |d.parts| && |d.writers| == |d.parts|
    requires d.writers[k] == AtTop && d.parts[k].progress == d.parts[k].start
    requires 0 <= d.parts[k].start <= d.parts[k].end < |d.content| && d.parts[k].end > 0
    ensures Reaches(d, Fetched(d, k))
  {
    hide Reaches, Overlay;
    var p := d.parts[k];
    var body := d.content[p.start..p.end + 1];
    var d1 := SetWriter(d, k, Asking);
    assert Apply(d, Look(k)) == d1;
    ReachesOne(d, Look(k));
    var d2 := SetWriter(d, k, Streaming(body));
    assert Apply(d1, Respond(k, body)) == d2;
    ReachesMore(d, d1, Respond(k, body));
    var d3 := SetWriter(d, k, Holding(body, []));
    assert body[..|body|] == body && body[|body|..] == [];
    assert Apply(d2, Fetch(k, |body|)) == d3;
    ReachesMore(d, d2, Fetch(k, |body|));
    HeldPart(d, d3, k);
    ReachesChain(d, d3, Fetched(d, k));
  }

  lemma {:induction false} MiddleBounds(parts: seq<Part>, size: int, k: nat)
    requires Tiles(parts, size) && parts[0].end == 0 && 0 < k < |parts|
    ensures 0 < parts[k].start <= parts[k].end < size
  {
    TilesCover(parts, size, parts[k].end);
    assert Within(parts[k], parts[k].end);
    TilesOrder(parts, size, 0, k);
  }

  lemma {:induction false} MovedTiles(parts: seq<Part>, size: int, k: nat, q: Part)
    requires Tiles(parts, size) && k < |parts| && q == parts[k].(progress := q.progress)
    ensures Tiles(parts[k := q], size)
  {
  }

  lemma {:induction false} HalfFetched(d: Download, k: nat)
    requires Half(d, k) && 0 < k < |d.parts|
    ensures 0 <= d.parts[k].start <= d.parts[k].end < |d.content| && d.parts[k].end > 0
    ensures Half(Fetched(d, k), k + 1)
  {
    hide Overlay;
    var p := d.parts[k];
    var q := p.(progress := p.end + 1);
    MiddleBounds(d.parts, |d.content|, k);
    SumUpdate(d.parts, k, q);
    MovedTiles(d.parts, |d.content|, k, q);
  }

  lemma {:induction false} ReachesSelf(d: Download)
    ensures Reaches(d, d)
  {
    assert Runs(d, []) && End(d, []) == d;
  }

  lemma {:induction false} RestFetched(d: Download, k: nat) returns (n: Download)
    requires Half(d, k) && 0 < k
    ensures Reaches(d, n) && Half(n, |n.parts|) && n.content == d.content
    decreases |d.parts| - k
  {
    hide Reaches, Tiles, Sum, Overlay;
    if k == |d.parts| {
      n := d;
      ReachesSelf(d);
    } else {
      HalfFetched(d, k);
      WholePart(d, k);
      n := RestFetched(Fetched(d, k), k + 1);
      ReachesChain(d, Fetched(d, k), n);
    }
  }

  lemma {:induction false} SumAtMost(parts: seq<Part>, size: int)
    requires parts != [] && parts[|parts| - 1].end == size - 1
    requires forall i :: 0 < i < |parts| ==> parts[i].start == parts[i - 1].end + 1
    requires forall i :: 0 <= i < |parts| ==> parts[i].progress <= parts[i].end + 1
    ensures Sum(parts) <= size - parts[0].start - (parts[0].end + 1 - parts[0].progress)
  {
    if |parts| > 1 {
      SumAtMost(parts[1..], size);
    } else {
      assert parts[1..] == [];
    }
  }

  lemma {:induction false} ZeroFirst(size: int, blockNum: int)
    requires 0 < size < 2 * Blocks(size, blockNum)
    ensures Generate(size, blockNum, true)[0] == Part(0, 0, 0)
  {
    StepOfOne(size, Blocks(size, blockNum));
  }

  lemma {:induction false} FirstHalf(content: seq<Byte>, blockNum: int)
    requires 0 < |content| < 2 * Blocks(|content|, blockNum)
    ensures Half(Apply(Initial(content, blockNum, []), Begin(true)), 0)
  {
    hide Generate, Blocks;
    var parts := Generate(|content|, blockNum, true);
    GenerateTiles(|content|, blockNum);
    ZeroFirst(|content|, blockNum);
    forall i | 0 <= i < |parts|
      ensures parts[i].progress == parts[i].start
    {
      assert parts[i] in parts;
    }
  }

  /** On a file with fewer than two bytes a part, a run can return success without the first byte. */
  lemma {:induction false} SmallFilesCutShort(content: seq<Byte>, blockNum: int) returns (n: Download)
    requires 0 < |content| < 2 * Blocks(|content|, blockNum) && content[0] != 0
    ensures Reaches(Initial(content, blockNum, []), n) && CutShort(n) && n.content == content
  {
    hide Reaches, Generate, Blocks;
    var d := Initial(content, blockNum, []);
    var b := Apply(d, Begin(true));
    ReachesOne(d, Begin(true));
    FirstHalf(content, blockNum);
    EmptyFirst(b);
    var b1 := SetWriter(b, 0, Done(true));
    ReachesChain(d, b, b1);
    var e := RestFetched(b1, 1);
    ReachesChain(d, b1, e);
    SumAtMost(e.parts, |content|);
    n := Apply(e, Finish(false));
    ReachesMore(d, e, Finish(false));
  }

  lemma {:induction false} InitialInv(content: seq<Byte>, blockNum: int, file: seq<Byte>)
    requires |content| > 0 && |content| >= 2 * Blocks(|content|, blockNum)
    ensures Inv(Initial(content, blockNum, file))
  {
  }

  // Every success on a file of this size, from a file no longer than it, is the whole content.
  ghost predicate AlwaysWhole(size: nat, blockNum: int) {
    forall content: seq<Byte>, file: seq<Byte>, n: Download ::
      |content| == size && |file| <= size && Reaches(Initial(content, blockNum, file), n) && n.phase == Idle(true) ==>
        n.file == content && n.received == size
  }

  lemma {:induction false} NotWhole(size: nat, blockNum: int, content: seq<Byte>, n: Download)
    requires |content| == size && Reaches(Initial(content, blockNum, []), n) && n.phase == Idle(true) && n.received != size
    ensures !AlwaysWhole(size, blockNum)
  {
    hide Reaches;
    var none: seq<Byte> := [];
    assert |none| <= size;
  }

  lemma {:induction false} WholeRun(content: seq<Byte>, blockNum: int, file: seq<Byte>, n: Download)
    requires |content| > 0 && |content| >= 2 * Blocks(|content|, blockNum) && |file| <= |content|
    requires Reaches(Initial(content, blockNum, file), n) && n.phase == Idle(true)
    ensures n.file == content && n.received == |content|
  {
    hide Runs, End, Inv, Blocks;
    var d := Initial(content, blockNum, file);
    var steps :| Runs(d, steps) && End(d, steps) == n;
    InitialInv(content, blockNum, file);
    RunKeeps(d, steps);
    LengthStaysOverRun(d, steps);
    SuccessfulRunIsComplete(content, blockNum, file, steps);
    assert n.file[..|content|] == n.file;
  }

  /** Success always means the whole file, byte for byte, exactly when the file has at least two
      bytes a part. */
  lemma {:induction false} SuccessIsWholeIff(size: nat, blockNum: int)
    requires size > 0
    ensures AlwaysWhole(size, blockNum) <==> size >= 2 * Blocks(size, blockNum)
  {
    hide Runs, End, Inv, Blocks, Reaches;
    if size < 2 * Blocks(size, blockNum) {
      var content: seq<Byte> := seq(size, _ => 1);
      var n := SmallFilesCutShort(content, blockNum);
      NotWhole(size, blockNum, content, n);
    } else {
      forall content: seq<Byte>, file: seq<Byte>, n: Download |
        |content| == size && |file| <= size && Reaches(Initial(content, blockNum, file), n) && n.phase == Idle(true)
        ensures n.file == content && n.received == size
      {
        WholeRun(content, blockNum, file, n);
      }
    }
  }
}
