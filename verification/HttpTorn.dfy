/** A progress record that a crash leaves half-written. The program tells a torn record only by its
    size, so the beginning of one that ends between two parts is taken for the whole. */
module HttpTorn {
  import opened Options
  import opened Files
  import opened HttpParts
  import opened HttpDownload
  import opened HttpSmallFiles

  lemma {:induction false} EncodePrefix(parts: seq<Part>, k: nat)
    requires (forall p :: p in parts ==> Fits(p)) && k <= |parts|
    ensures Encode(parts)[..24 * k] == Encode(parts[..k])
  {
    hide Fits, EncodePart;
    if k > 0 {
      EncodePrefix(parts[1..], k - 1);
      assert parts[..k][0] == parts[0] && parts[..k][1..] == parts[1..][..k - 1];
      assert |EncodePart(parts[0])| == 24 by { PartLength(parts[0]); }
      assert Encode(parts)[..24 * k] == EncodePart(parts[0]) + Encode(parts[1..])[..24 * (k - 1)];
    }
  }

  /** What is restored from the first m bytes of a record. */
  lemma {:induction false} TornRestores(parts: seq<Part>, m: nat)
    requires (forall p :: p in parts ==> Fits(p)) && m <= |Encode(parts)|
    ensures Restore(Some(Encode(parts)[..m])) == if m % 24 != 0 || m == 0 then None else Some(parts[..m / 24])
  {
    hide Fits;
    if m % 24 == 0 {
      var k := m / 24;
      EncodePrefix(parts, k);
      RecordRoundTrip(parts[..k]);
    }
  }

  // The process dies when m bytes of the record of its parts are written.
  function Torn(d: Download, m: nat): Download
    requires (forall p :: p in d.parts ==> Fits(p)) && m <= |Encode(d.parts)|
  {
    d.(phase := Idle(false), late := [], record := Restore(Some(Encode(d.parts)[..m])))
  }

  // A success is the whole content, counted once.
  ghost predicate Whole(d: Download) {
    d.received == |d.content| && Matches(d.file, d.content, 0, |d.content|)
  }

  ghost predicate OnlyWhole(d: Download) {
    forall n: Download :: Reaches(d, n) && n.phase == Idle(true) ==> Whole(n)
  }

  lemma {:induction false} LiveFits(d: Download)
    requires Inv(d) && d.phase.Active? && |d.content| < 0x8000_0000_0000_0000
    ensures forall p :: p in d.parts ==> Fits(p)
  {
    forall p | p in d.parts ensures Fits(p) {
      var i :| 0 <= i < |d.parts| && d.parts[i] == p;
      PartBounds(d, i);
    }
  }

  lemma {:induction false} InvOnlyWhole(d: Download)
    requires Inv(d)
    ensures OnlyWhole(d)
  {
    hide Runs, End;
    forall n: Download | Reaches(d, n) && n.phase == Idle(true) ensures Whole(n) {
      var steps :| Runs(d, steps) && End(d, steps) == n;
      RunKeeps(d, steps);
    }
  }

  // ---- A run over the first parts alone ----

  // The first k parts are done; the others have not been looked at.
  ghost predicate Ending(d: Download, k: nat) {
    && d.phase.Active? && |d.writers| == |d.parts| && k <= |d.parts| && d.received == Sum(d.parts)
    && (forall i :: 0 <= i < |d.parts| ==>
          var p := d.parts[i]; 0 <= p.start <= p.progress <= p.end + 1 && 0 < p.end < |d.content|)
    && (forall i :: 0 <= i < k ==> d.writers[i] == Done(true) && d.parts[i].progress == d.parts[i].end + 1)
    && (forall i :: k <= i < |d.parts| ==> d.writers[i] == AtTop)
  }

  // Part number k is fetched to its end.
  function Completed(d: Download, k: nat): Download
    requires k < |d.parts| == |d.writers| && 0 <= d.parts[k].progress <= d.parts[k].end + 1 <= |d.content|
  {
    var p := d.parts[k];
    var body := d.content[p.progress..p.end + 1];
    d.(writers := d.writers[k := Done(true)], parts := d.parts[k := p.(progress := p.end + 1)],
       file := Overlay(d.file, p.progress, body), received := d.received + |body|)
  }

  lemma {:induction false} HeldRest(d: Download, d3: Download, k: nat)
    requires Ending(d, k) && k < |d.parts| && d.parts[k].progress <= d.parts[k].end
    requires d3 == SetWriter(d, k, Holding(d.content[d.parts[k].progress..d.parts[k].end + 1], []))
    ensures Reaches(d3, Completed(d, k))
  {
    hide Reaches, Overlay, Sum;
    var p := d.parts[k];
    var body := d.content[p.progress..p.end + 1];
    var d4 := SetWriter(d, k, Written(|body|, [])).(file := Overlay(d.file, p.progress, body));
    assert Apply(d3, Write(k)) == d4;
    ReachesOne(d3, Write(k));
    var d5 := SetWriter(d4, k, Moved(|body|, [])).(parts := d.parts[k := p.(progress := p.end + 1)]);
    assert Apply(d4, Move(k)) == d5;
    ReachesMore(d3, d4, Move(k));
    assert Apply(d5, Count(k)) == Completed(d, k);
    ReachesMore(d3, d5, Count(k));
  }

  lemma {:induction false} CompletedReached(d: Download, k: nat)
    requires Ending(d, k) && k < |d.parts|
    ensures Reaches(d, Completed(d, k))
  {
    hide Reaches, Overlay, Sum;
    var p := d.parts[k];
    var body := d.content[p.progress..p.end + 1];
    if body == [] {
      assert p.progress == p.end + 1 && p == p.(progress := p.end + 1);
      assert d.parts[k := p] == d.parts;
      assert Apply(d, Look(k)) == Completed(d, k);
      ReachesOne(d, Look(k));
    } else {
      var d1 := SetWriter(d, k, Asking);
      assert Apply(d, Look(k)) == d1;
      ReachesOne(d, Look(k));
      var d2 := SetWriter(d, k, Streaming(body));
      assert Apply(d1, Respond(k, body)) == d2;
      ReachesMore(d, d1, Respond(k, body));
      var d3 := SetWriter(d, k, Holding(body, []));
      assert body[..|body|] == body && body[|body|..] == [];
      assert Apply(d2, Fetch(k, |body|)) == d3;
      ReachesMore(d, d2, Fetch(k, |body|));
      HeldRest(d, d3, k);
      ReachesChain(d, d3, Completed(d, k));
    }
  }

  lemma {:induction false} CompletedEnding(d: Download, k: nat)
    requires Ending(d, k) && k < |d.parts|
    ensures Ending(Completed(d, k), k + 1)
  {
    hide Overlay, Sum;
    SumUpdate(d.parts, k, d.parts[k].(progress := d.parts[k].end + 1));
  }

  ghost predicate SameShape(a: seq<Part>, b: seq<Part>) {
    |a| == |b| && forall i :: 0 <= i < |a| ==> a[i].start == b[i].start && a[i].end == b[i].end
  }

  function ByteAt(f: seq<Byte>, j: nat): Option<Byte> {
    if j < |f| then Some(f[j]) else None
  }

  // From byte `cut` on, the two files are the same.
  ghost predicate SameBeyond(f: seq<Byte>, g: seq<Byte>, cut: int) {
    forall j: nat :: cut <= j ==> ByteAt(f, j) == ByteAt(g, j)
  }

  lemma {:induction false} CompletedBeyond(d: Download, k: nat, cut: int)
    requires Ending(d, k) && k < |d.parts| && d.parts[k].end < cut
    ensures SameBeyond(d.file, Completed(d, k).file, cut) && SameShape(d.parts, Completed(d, k).parts)
  {
    hide Sum;
  }

  lemma {:induction false} BeyondSelf(f: seq<Byte>, cut: int)
    ensures SameBeyond(f, f, cut)
  {
  }

  lemma {:induction false} EndingWhole(d: Download, k: nat)
    requires Ending(d, k)
    ensures k <= |d.parts|
  {
  }

  lemma {:induction false} EndingBounds(d: Download, k: nat)
    requires Ending(d, k) && k < |d.parts|
    ensures |d.writers| == |d.parts| && 0 <= d.parts[k].progress <= d.parts[k].end + 1 <= |d.content|
  {
  }

  lemma {:induction false} BeyondChain(f: seq<Byte>, g: seq<Byte>, h: seq<Byte>, cut: int)
    requires SameBeyond(f, g, cut) && SameBeyond(g, h, cut)
    ensures SameBeyond(f, h, cut)
  {
  }

  lemma {:induction false} PartsCompleted(d: Download, k: nat, cut: int) returns (n: Download)
    requires Ending(d, k) && forall i :: 0 <= i < |d.parts| ==> d.parts[i].end < cut
    ensures Reaches(d, n) && Ending(n, |n.parts|) && n.content == d.content
    ensures SameShape(d.parts, n.parts) && SameBeyond(d.file, n.file, cut)
    decreases |d.parts| - k
  {
    hide Reaches, Sum, Overlay, Ending, SameBeyond;
    if k >= |d.parts| {
      n := d;
      EndingWhole(d, k);
      ReachesSelf(d);
      assert SameBeyond(d.file, d.file, cut) by { BeyondSelf(d.file, cut); }
    } else {
      CompletedReached(d, k);
      CompletedEnding(d, k);
      CompletedBeyond(d, k, cut);
      EndingBounds(d, k);
      n := PartsCompleted(Completed(d, k), k + 1, cut);
      ReachesChain(d, Completed(d, k), n);
      BeyondChain(d.file, Completed(d, k).file, n.file, cut);
    }
  }

  lemma {:induction false} PrefixTiles(parts: seq<Part>, size: int, k: nat)
    requires Tiles(parts, size) && 0 < k < |parts|
    ensures Tiles(parts[..k], parts[k].start) && 0 < parts[k].start < size
    ensures forall i :: 0 <= i < k ==> parts[i].end < parts[k].start
  {
    forall i | 0 <= i < k ensures parts[i].end < parts[k].start {
      TilesOrder(parts, size, i, k);
    }
    TilesCover(parts, size, parts[k].start);
    assert Within(parts[k], parts[k].start) && Within(parts[0], 0);
    TilesCover(parts, size, 0);
  }

  lemma {:induction false} ShapeTiles(a: seq<Part>, b: seq<Part>, size: int)
    requires SameShape(a, b) && Tiles(a, size)
    ensures Tiles(b, size)
  {
  }

  // The first parts, taken for all of them.
  lemma {:induction false} PrefixBegins(d: Download, t: Download, k: nat)
    requires Inv(d) && d.phase.Active? && 0 < k < |d.parts|
    requires t == d.(phase := Idle(false), late := [], record := Some(d.parts[..k]))
    ensures Ending(Apply(t, Begin(false)), 0)
    ensures Apply(t, Begin(false)).parts == d.parts[..k] && Apply(t, Begin(false)).file == d.file
  {
    hide Generate, Sum, Valid;
    forall i | 0 <= i < k
      ensures var p := d.parts[..k][i]; 0 <= p.start <= p.progress <= p.end + 1 && 0 < p.end < |d.content|
    {
      PartBounds(d, i);
    }
  }

  lemma {:induction false} FinishedRun(t: Download, e: Download, size: nat) returns (n: Download)
    requires Reaches(t, e) && Ending(e, |e.parts|) && Tiles(e.parts, size)
    ensures Reaches(t, n) && n.phase == Idle(true) && n.content == e.content && n.file == e.file && n.received == size
  {
    hide Reaches, Sum;
    SumComplete(e.parts, size);
    n := Apply(e, Finish(false));
    ReachesMore(t, e, Finish(false));
  }

  /** A record cut between two parts: a later run fetches the parts it names and reports success;
      of what lay behind them, the file is as it was. */
  lemma {:induction false} CutRecordSucceeds(d: Download, k: nat) returns (n: Download)
    requires Inv(d) && d.phase.Active? && 0 < k < |d.parts|
    ensures Reaches(d.(phase := Idle(false), late := [], record := Some(d.parts[..k])), n)
    ensures n.phase == Idle(true) && n.content == d.content
    ensures n.received == d.parts[k].start < |d.content|
    ensures SameBeyond(d.file, n.file, d.parts[k].start)
  {
    hide Reaches, Sum, Generate, Ending;
    var t := d.(phase := Idle(false), late := [], record := Some(d.parts[..k]));
    var cut := d.parts[k].start;
    PrefixTiles(d.parts, |d.content|, k);
    PrefixBegins(d, t, k);
    ReachesOne(t, Begin(false));
    var b := Apply(t, Begin(false));
    var e := PartsCompleted(b, 0, cut);
    ReachesChain(t, b, e);
    ShapeTiles(b.parts, e.parts, cut);
    n := FinishedRun(t, e, cut);
  }

  lemma {:induction false} NotCounted(n: Download)
    requires n.received < |n.content|
    ensures !Whole(n)
  {
  }

  lemma {:induction false} TornInv(d: Download, t: Download)
    requires Inv(d) && d.phase.Active? && (t.record.None? || t.record == Some(d.parts))
    requires t == d.(phase := Idle(false), late := [], record := t.record)
    ensures Inv(t)
  {
    hide Valid;
  }

  /** After a crash that leaves m bytes of the record, success always means the whole content if and
      only if the cut is not between two parts. */
  lemma {:induction false} TornIsSafeIff(d: Download, m: nat)
    requires Inv(d) && d.phase.Active? && |d.content| < 0x8000_0000_0000_0000 && m <= 24 * |d.parts|
    ensures (forall p :: p in d.parts ==> Fits(p))
    ensures OnlyWhole(Torn(d, m)) <==> m % 24 != 0 || m == 0 || m == 24 * |d.parts|
  {
    LiveFits(d);
    hide Reaches, Restore, Encode, Whole, Fits;
    TornRestores(d.parts, m);
    var t, k := Torn(d, m), m / 24;
    if m % 24 != 0 || m == 0 || m == 24 * |d.parts| {
      assert d.parts[..|d.parts|] == d.parts;
      TornInv(d, t);
      InvOnlyWhole(t);
    } else {
      var n := CutRecordSucceeds(d, k);
      assert !Whole(n) by { NotCounted(n); }
    }
  }
}
