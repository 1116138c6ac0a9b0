/** How the HTTP worker splits a file into parts, and the `.ghd` record that remembers them. */
module HttpParts {
  import opened Options
  import opened Files

  datatype Part = Part(start: int, progress: int, end: int)

  const UNKNOWN_SIZE := 0
  const NOT_SUPPORTED_SIZE := -1

  function Blocks(fileSize: int, blockNum: int): int {
    var n := if blockNum <= 0 then 8 else blockNum;
    if n > fileSize then fileSize else n
  }

  function PartAt(fileSize: int, blocks: int, i: int): Part
    requires blocks > 0
  {
    var step := fileSize / blocks;
    Part(i * step, i * step, if i == blocks - 1 then fileSize - 1 else (i + 1) * step - 1)
  }

  function Generate(fileSize: int, blockNum: int, supportsRange: bool): seq<Part> {
    if !supportsRange then [Part(0, 0, NOT_SUPPORTED_SIZE)]
    else if fileSize <= 0 then [Part(0, 0, UNKNOWN_SIZE)]
    else seq(Blocks(fileSize, blockNum), i => PartAt(fileSize, Blocks(fileSize, blockNum), i))
  }

  method GenerateParts(fileSize: int, blockNum: int, supportsRange: bool) returns (parts: seq<Part>)
    ensures parts == Generate(fileSize, blockNum, supportsRange)
  {
    var n := blockNum;
    if n <= 0 {
      n := 8;
    }
    if !supportsRange {
      return [Part(0, 0, NOT_SUPPORTED_SIZE)];
    }
    if fileSize <= 0 {
      return [Part(0, 0, UNKNOWN_SIZE)];
    }
    if n > fileSize {
      n := fileSize;
    }
    var step := fileSize / n;
    parts := [];
    var start := 0;
    for i := 0 to n - 1
      invariant start == i * step && |parts| == i
      invariant forall k :: 0 <= k < i ==> parts[k] == PartAt(fileSize, n, k)
    {
      var end := start + step - 1;
      assert (i + 1) * step == i * step + step;
      parts := parts + [Part(start, start, end)];
      start := end + 1;
    }
    parts := parts + [Part(start, start, fileSize - 1)];
    assert n == Blocks(fileSize, blockNum);
    assert parts == seq(n, k => PartAt(fileSize, n, k));
  }

  // The parts follow each other without gap or overlap from 0 to size - 1.
  ghost predicate Tiles(parts: seq<Part>, size: int) {
    && parts != [] && parts[0].start == 0 && parts[|parts| - 1].end == size - 1
    && (forall i :: 0 <= i < |parts| ==> parts[i].start <= parts[i].end)
    && (forall i :: 0 < i < |parts| ==> parts[i].start == parts[i - 1].end + 1)
  }

  ghost predicate Within(p: Part, j: int) {
    p.start <= j <= p.end
  }

  lemma {:induction false} LastStart(size: int, blocks: int)
    requires 0 < blocks <= size
    ensures size / blocks >= 1
    ensures (blocks - 1) * (size / blocks) <= size - 1
  {
    var step := size / blocks;
    assert blocks * step <= size;
    assert (blocks - 1) * step == blocks * step - step;
  }

  /** A known size splits into parts that tile the file, nothing of them downloaded yet. */
  lemma {:induction false} GenerateTiles(fileSize: int, blockNum: int)
    requires fileSize > 0
    ensures Tiles(Generate(fileSize, blockNum, true), fileSize)
    ensures forall p :: p in Generate(fileSize, blockNum, true) ==> p.progress == p.start
  {
    var n := Blocks(fileSize, blockNum);
    var step := fileSize / n;
    LastStart(fileSize, n);
    forall i | 0 <= i < n
      ensures var p := PartAt(fileSize, n, i); p.start <= p.end
    {
      assert (i + 1) * step == i * step + step;
      if i == n - 1 { assert i * step <= fileSize - 1; }
    }
    forall i | 0 < i < n
      ensures PartAt(fileSize, n, i).start == PartAt(fileSize, n, i - 1).end + 1
    {
    }
  }

  lemma {:induction false} PartLong(fileSize: int, n: int, i: int)
    requires 0 <= i < n <= fileSize
    ensures var p := PartAt(fileSize, n, i);
            var size := p.end + 1 - p.start;
            if i < n - 1 then size == fileSize / n else fileSize / n <= size < fileSize / n + n
  {
    var step := fileSize / n;
    assert fileSize == n * step + fileSize % n;
    assert (i + 1) * step == i * step + step;
    if i == n - 1 { assert n * step == (i + 1) * step; }
  }

  /** How a size is divided: as many parts as asked for (8 when none are asked for), but no more
      than bytes; all of them equally long but the last, which takes the remainder. What cannot be
      divided is one part without an end. */
  lemma {:induction false} PartSizes(fileSize: int, blockNum: int, supportsRange: bool)
    ensures var parts := Generate(fileSize, blockNum, supportsRange);
            if !supportsRange then parts == [Part(0, 0, -1)]
            else if fileSize <= 0 then parts == [Part(0, 0, 0)]
            else
              var wanted, n := if blockNum > 0 then blockNum else 8, |parts|;
              && 0 < n <= fileSize && n <= wanted && (n == fileSize || n == wanted)
              && (forall i :: 0 <= i < n - 1 ==> parts[i].end + 1 - parts[i].start == fileSize / n)
              && fileSize / n <= parts[n - 1].end + 1 - parts[n - 1].start < fileSize / n + n
  {
    if supportsRange && fileSize > 0 {
      var n := Blocks(fileSize, blockNum);
      var parts := Generate(fileSize, blockNum, true);
      forall i | 0 <= i < n
        ensures var size := parts[i].end + 1 - parts[i].start;
                if i < n - 1 then size == fileSize / n else fileSize / n <= size < fileSize / n + n
      {
        assert parts[i] == PartAt(fileSize, n, i);
        PartLong(fileSize, n, i);
      }
    }
  }

  lemma {:induction false} StepOfOne(size: int, n: int)
    requires 0 < n <= size
    ensures size / n == 1 <==> size < 2 * n
  {
  }

  lemma {:induction false} LaterEnds(step: int, i: int)
    requires step >= 2 && i >= 0
    ensures (i + 1) * step >= 2
  {
    assert (i + 1) * step == i * step + step;
  }

  /** Some part ends at byte 0, and so reads as a part of unknown size, exactly when the file has
      fewer than two bytes a part. */
  lemma {:induction false} ZeroEndIff(fileSize: int, blockNum: int)
    requires fileSize > 0
    ensures (exists p :: p in Generate(fileSize, blockNum, true) && p.end == UNKNOWN_SIZE)
            <==> fileSize < 2 * Blocks(fileSize, blockNum)
  {
    var n := Blocks(fileSize, blockNum);
    var parts := Generate(fileSize, blockNum, true);
    LastStart(fileSize, n);
    StepOfOne(fileSize, n);
    if fileSize < 2 * n {
      assert parts[0] in parts;
      assert parts[0].end == 0;
    } else {
      forall p | p in parts
        ensures p.end > 0
      {
        var i :| 0 <= i < n && p == PartAt(fileSize, n, i);
        LaterEnds(fileSize / n, i);
      }
    }
  }

  lemma {:induction false} TilesOrder(parts: seq<Part>, size: int, i: int, j: int)
    requires Tiles(parts, size) && 0 <= i < j < |parts|
    ensures parts[i].end < parts[j].start
    decreases j
  {
    if i < j - 1 {
      TilesOrder(parts, size, i, j - 1);
      assert parts[j - 1].start <= parts[j - 1].end;
    }
  }

  /** Every byte of the file lies in exactly one part. */
  lemma {:induction false} TilesCover(parts: seq<Part>, size: int, j: int)
    requires Tiles(parts, size)
    ensures 0 <= j < size <==> exists i :: 0 <= i < |parts| && Within(parts[i], j)
    ensures forall i, k :: 0 <= i < k < |parts| ==> !(Within(parts[i], j) && Within(parts[k], j))
  {
    forall i, k | 0 <= i < k < |parts|
      ensures parts[i].end < parts[k].start
    {
      TilesOrder(parts, size, i, k);
    }
    if exists i :: 0 <= i < |parts| && Within(parts[i], j) {
      var i :| 0 <= i < |parts| && Within(parts[i], j);
      assert i == 0 || parts[0].end < parts[i].start;
      assert i == |parts| - 1 || parts[i].end < parts[|parts| - 1].start;
    }
    if 0 <= j < size {
      var i := 0;
      while j > parts[i].end
        invariant 0 <= i < |parts| && parts[i].start <= j
        decreases |parts| - i
      {
        i := i + 1;
      }
      assert Within(parts[i], j);
    }
  }

  // ---- The record: three little-endian 64-bit words a part ----

  const WORD := 0x1_0000_0000_0000_0000
  const HALF := 0x8000_0000_0000_0000

  function ToWord(v: int): int {
    if v < 0 then v + WORD else v
  }

  function FromWord(u: int): int {
    if u >= HALF then u - WORD else u
  }

  function Power256(k: nat): (r: int)
    ensures r > 0
  {
    if k == 0 then 1 else 256 * Power256(k - 1)
  }

  function Le(u: nat, k: nat): (r: seq<Byte>)
    ensures |r| == k
  {
    if k == 0 then [] else [u % 256] + Le(u / 256, k - 1)
  }

  function FromLe(bytes: seq<Byte>): nat {
    if bytes == [] then 0 else bytes[0] + 256 * FromLe(bytes[1..])
  }

  lemma {:induction false} LeRoundTrip(u: nat, k: nat)
    requires u < Power256(k)
    ensures FromLe(Le(u, k)) == u
  {
    if k > 0 {
      assert u / 256 < Power256(k - 1);
      LeRoundTrip(u / 256, k - 1);
      assert Le(u, k)[1..] == Le(u / 256, k - 1);
    }
  }

  lemma {:induction false} Digit(low: Byte, rest: nat)
    ensures (low + 256 * rest) % 256 == low && (low + 256 * rest) / 256 == rest
  {
  }

  lemma {:induction false} FromLeRoundTrip(bytes: seq<Byte>)
    ensures FromLe(bytes) < Power256(|bytes|) && Le(FromLe(bytes), |bytes|) == bytes
  {
    if bytes != [] {
      FromLeRoundTrip(bytes[1..]);
      Digit(bytes[0], FromLe(bytes[1..]));
      assert bytes == [bytes[0]] + bytes[1..];
    }
  }

  lemma {:induction false} WordSize()
    ensures Power256(8) == WORD
  {
    assert Power256(2) == 65536;
    assert Power256(4) == 65536 * 65536;
    assert Power256(6) == 65536 * 65536 * 65536;
  }

  ghost predicate Fits(p: Part) {
    -HALF <= p.start < HALF && -HALF <= p.progress < HALF && -HALF <= p.end < HALF
  }

  function Field(v: int): seq<Byte>
    requires -HALF <= v < HALF
  {
    Le(ToWord(v), 8)
  }

  function EncodePart(p: Part): (r: seq<Byte>)
    requires Fits(p)
    ensures |r| == 24
  {
    Field(p.start) + Field(p.progress) + Field(p.end)
  }

  function DecodePart(bytes: seq<Byte>): Part
    requires |bytes| == 24
  {
    Part(FromWord(FromLe(bytes[..8])), FromWord(FromLe(bytes[8..16])), FromWord(FromLe(bytes[16..])))
  }

  function Encode(parts: seq<Part>): (r: seq<Byte>)
    requires forall p :: p in parts ==> Fits(p)
    ensures |r| == 24 * |parts|
  {
    if parts == [] then [] else EncodePart(parts[0]) + Encode(parts[1..])
  }

  function Decode(data: seq<Byte>): seq<Part>
    requires |data| % 24 == 0
  {
    if data == [] then [] else [DecodePart(data[..24])] + Decode(data[24..])
  }

  // None is "no usable record": missing, torn, or empty.
  function Restore(record: Option<seq<Byte>>): Option<seq<Part>> {
    if record.None? || |record.value| % 24 != 0 || record.value == [] then None else Some(Decode(record.value))
  }

  lemma {:induction false} FieldRoundTrip(v: int)
    requires -HALF <= v < HALF
    ensures FromWord(FromLe(Field(v))) == v
  {
    WordSize();
    LeRoundTrip(ToWord(v), 8);
  }

  lemma {:induction false} FieldBack(bytes: seq<Byte>)
    requires |bytes| == 8
    ensures -HALF <= FromWord(FromLe(bytes)) < HALF && Field(FromWord(FromLe(bytes))) == bytes
  {
    WordSize();
    FromLeRoundTrip(bytes);
  }

  lemma {:induction false} FieldSizes(p: Part)
    requires Fits(p)
    ensures |Field(p.start)| == |Field(p.progress)| == |Field(p.end)| == 8
  {
  }

  lemma {:induction false} PartRoundTrip(p: Part)
    requires Fits(p)
    ensures DecodePart(EncodePart(p)) == p
  {
    hide Field, FromLe, FromWord;
    var e := EncodePart(p);
    FieldSizes(p);
    assert e[..8] == Field(p.start) && e[8..16] == Field(p.progress) && e[16..] == Field(p.end);
    FieldRoundTrip(p.start);
    FieldRoundTrip(p.progress);
    FieldRoundTrip(p.end);
  }

  lemma {:induction false} PartBack(bytes: seq<Byte>)
    requires |bytes| == 24
    ensures Fits(DecodePart(bytes)) && EncodePart(DecodePart(bytes)) == bytes
  {
    hide Field, FromLe, FromWord;
    FieldBack(bytes[..8]);
    FieldBack(bytes[8..16]);
    FieldBack(bytes[16..]);
    assert bytes == bytes[..8] + bytes[8..16] + bytes[16..];
  }

  lemma {:induction false} PartLength(p: Part)
    requires Fits(p)
    ensures |EncodePart(p)| == 24
  {
  }

  /** Restoring what was recorded gives the same parts, negative fields included. */
  lemma {:induction false} RecordRoundTrip(parts: seq<Part>)
    requires forall p :: p in parts ==> Fits(p)
    ensures Decode(Encode(parts)) == parts
    ensures Restore(Some(Encode(parts))) == if parts == [] then None else Some(parts)
  {
    hide EncodePart, DecodePart;
    if parts != [] {
      var e := Encode(parts);
      assert |EncodePart(parts[0])| == 24 by { PartLength(parts[0]); }
      assert e[..24] == EncodePart(parts[0]) && e[24..] == Encode(parts[1..]);
      PartRoundTrip(parts[0]);
      RecordRoundTrip(parts[1..]);
    }
  }

  /** Recording what was restored gives the same bytes. */
  lemma {:induction false} RecordBack(data: seq<Byte>)
    requires |data| % 24 == 0
    ensures (forall p :: p in Decode(data) ==> Fits(p)) && Encode(Decode(data)) == data
    ensures data != [] ==> Restore(Some(data)).Some?
  {
    hide EncodePart, DecodePart, Fits;
    if data != [] {
      PartBack(data[..24]);
      RecordBack(data[24..]);
      assert data == data[..24] + data[24..];
      assert Decode(data)[0] == DecodePart(data[..24]) && Decode(data)[1..] == Decode(data[24..]);
    }
  }

  lemma {:induction false} NextMultiple(d: int, a: int, b: int)
    requires d > 0 && a < b
    ensures d * a + d <= d * b
  {
    assert d * (b - a - 1) >= 0;
    assert d * (b - a - 1) == d * b - d * a - d;
  }

  lemma {:induction false} Quotient(u: int, d: int, q: int, r: int)
    requires d > 0 && u == d * q + r && 0 <= r < d
    ensures u / d == q
  {
    if u / d < q {
      NextMultiple(d, u / d, q);
      assert false;
    }
    if u / d > q {
      NextMultiple(d, q, u / d);
      assert false;
    }
  }

  lemma {:induction false} Regrouped(a: int, b: int, p: int, s: int, r: int)
    ensures a * (b * p + s) + r == (a * b) * p + (a * s + r)
  {
    assert a * (b * p + s) == a * (b * p) + a * s;
    assert a * (b * p) == (a * b) * p;
  }

  lemma {:induction false} RestFits(a: int, b: int, s: int, r: int)
    requires 0 <= s < b && 0 <= r < a
    ensures 0 <= a * s + r < a * b
  {
    assert a * s >= 0;
    NextMultiple(a, s, b);
  }

  lemma {:induction false} DivideTwice(u: nat, a: nat, b: nat)
    requires a > 0 && b > 0
    ensures a * b > 0 && u / a / b == u / (a * b)
  {
    var q, r := u / a, u % a;
    var p, s := q / b, q % b;
    Regrouped(a, b, p, s, r);
    RestFits(a, b, s, r);
    Quotient(u, a * b, p, a * s + r);
  }

  lemma {:induction false} LeDigit(u: nat, k: nat, j: nat)
    requires j < k
    ensures Le(u, k)[j] == u / Power256(j) % 256
  {
    if j > 0 {
      LeDigit(u / 256, k - 1, j - 1);
      DivideTwice(u, 256, Power256(j - 1));
    }
  }

  // The j-th byte of a field: of its 64 bits in two's complement, those from bit 8 * j on.
  ghost predicate WordAt(data: seq<Byte>, offset: nat, v: int) {
    && offset + 8 <= |data|
    && forall j :: 0 <= j < 8 ==> data[offset + j] == v % WORD / Power256(j) % 256
  }

  lemma {:induction false} FieldLayout(v: int)
    requires -HALF <= v < HALF
    ensures WordAt(Field(v), 0, v)
  {
    assert v % WORD == ToWord(v) by {
      if v < 0 { Quotient(v, WORD, -1, v + WORD); } else { Quotient(v, WORD, 0, v); }
    }
    forall j | 0 <= j < 8
      ensures Field(v)[j] == v % WORD / Power256(j) % 256
    {
      LeDigit(ToWord(v), 8, j);
    }
  }

  lemma {:induction false} WordWithin(field: seq<Byte>, data: seq<Byte>, offset: nat, v: int)
    requires WordAt(field, 0, v) && |field| == 8 && offset + 8 <= |data| && data[offset..offset + 8] == field
    ensures WordAt(data, offset, v)
  {
    hide Power256;
    forall j | 0 <= j < 8
      ensures data[offset + j] == v % WORD / Power256(j) % 256
    {
      assert data[offset + j] == field[j];
      assert field[0 + j] == v % WORD / Power256(j) % 256;
    }
  }

  lemma {:induction false} EncodeAt(parts: seq<Part>, i: nat)
    requires (forall p :: p in parts ==> Fits(p)) && i < |parts|
    ensures Encode(parts)[24 * i..24 * i + 24] == EncodePart(parts[i])
  {
    hide EncodePart, Fits;
    if i > 0 {
      EncodeAt(parts[1..], i - 1);
      var e, rest := Encode(parts), Encode(parts[1..]);
      assert |EncodePart(parts[0])| == 24 by { PartLength(parts[0]); }
      assert e[24..] == rest;
      assert e[24 * i..24 * i + 24] == rest[24 * (i - 1)..24 * (i - 1) + 24];
    }
  }

  lemma {:induction false} SliceOfSlice(data: seq<Byte>, at: nat, n: nat, from: nat)
    requires at + n <= |data| && from + 8 <= n
    ensures data[at + from..at + from + 8] == data[at..at + n][from..from + 8]
  {
    var whole, slice := data[at..at + n], data[at + from..at + from + 8];
    forall j | 0 <= j < 8
      ensures slice[j] == whole[from..from + 8][j]
    {
      assert whole[from + j] == data[at + from + j];
    }
  }

  /** The layout of the record: 24 bytes a part, in order; in them start, progress and end as
      64-bit words in two's complement, the low byte first. */
  lemma {:induction false} RecordLayout(parts: seq<Part>, i: nat)
    requires (forall p :: p in parts ==> Fits(p)) && i < |parts|
    ensures var data, p := Encode(parts), parts[i];
            && |data| == 24 * |parts|
            && WordAt(data, 24 * i, p.start) && WordAt(data, 24 * i + 8, p.progress)
            && WordAt(data, 24 * i + 16, p.end)
  {
    hide WordAt, Field, Encode;
    var data, p := Encode(parts), parts[i];
    assert p in parts;
    EncodeAt(parts, i);
    FieldSizes(p);
    var e := data[24 * i..24 * i + 24];
    assert e[..8] == Field(p.start) && e[8..16] == Field(p.progress) && e[16..] == Field(p.end);
    FieldLayout(p.start);
    FieldLayout(p.progress);
    FieldLayout(p.end);
    SliceOfSlice(data, 24 * i, 24, 0);
    SliceOfSlice(data, 24 * i, 24, 8);
    SliceOfSlice(data, 24 * i, 24, 16);
    WordWithin(Field(p.start), data, 24 * i, p.start);
    WordWithin(Field(p.progress), data, 24 * i + 8, p.progress);
    WordWithin(Field(p.end), data, 24 * i + 16, p.end);
  }

  // ---- The record as the worker writes and reads it ----

  method PutWord(data: array<Byte>, offset: nat, v: int)
    requires offset + 8 <= data.Length && -HALF <= v < HALF
    modifies data
    ensures data[offset..offset + 8] == Field(v)
    ensures data[..offset] == old(data[..offset]) && data[offset + 8..] == old(data[offset + 8..])
  {
    var u := ToWord(v);
    for i := 0 to 8
      invariant u >= 0
      invariant data[offset..offset + i] + Le(u, 8 - i) == Field(v)
      invariant data[..offset] == old(data[..offset]) && data[offset + 8..] == old(data[offset + 8..])
    {
      ghost var before := data[offset..offset + i];
      assert Le(u, 8 - i) == [u % 256] + Le(u / 256, 8 - i - 1);
      data[offset + i] := u % 256;
      assert data[offset..offset + i + 1] == before + [u % 256];
      u := u / 256;
    }
  }

  method PutPart(data: array<Byte>, offset: nat, p: Part)
    requires offset + 24 <= data.Length && Fits(p)
    modifies data
    ensures data[offset..offset + 24] == EncodePart(p) && data[..offset] == old(data[..offset])
  {
    hide Field;
    PutWord(data, offset, p.start);
    ghost var a := data[..offset + 8];
    assert a[..offset] == old(data[..offset]) && a[offset..] == Field(p.start);
    PutWord(data, offset + 8, p.progress);
    ghost var b := data[..offset + 16];
    assert b[..offset + 8] == a && b[offset + 8..] == Field(p.progress);
    PutWord(data, offset + 16, p.end);
    ghost var c := data[..offset + 24];
    assert c[..offset + 16] == b && c[offset + 16..] == Field(p.end);
    assert c[..offset] == b[..offset] == a[..offset];
    assert data[offset..offset + 24] == c[offset..];
    assert c[offset..] == a[offset..] + b[offset + 8..] + c[offset + 16..];
  }

  lemma {:induction false} EncodeSnoc(parts: seq<Part>, p: Part)
    requires (forall q :: q in parts ==> Fits(q)) && Fits(p)
    ensures Encode(parts + [p]) == Encode(parts) + EncodePart(p)
  {
    hide EncodePart, Fits;
    if parts == [] {
      assert [p][1..] == [];
    } else {
      assert (parts + [p])[1..] == parts[1..] + [p];
      EncodeSnoc(parts[1..], p);
    }
  }

  method WriteRecord(parts: seq<Part>) returns (data: array<Byte>)
    requires forall p :: p in parts ==> Fits(p)
    ensures fresh(data) && data[..] == Encode(parts)
  {
    data := new Byte[|parts| * 24];
    for i := 0 to |parts|
      invariant data[..i * 24] == Encode(parts[..i])
    {
      var p, offset := parts[i], i * 24;
      assert p in parts;
      PutPart(data, offset, p);
      assert data[..offset + 24] == data[..offset] + data[offset..offset + 24];
      EncodeSnoc(parts[..i], p);
      assert parts[..i + 1] == parts[..i] + [p];
    }
    assert parts[..|parts|] == parts;
  }

  method RestoreParts(record: Option<seq<Byte>>) returns (parts: seq<Part>, ok: bool)
    ensures ok <==> Restore(record).Some?
    ensures ok ==> Restore(record) == Some(parts)
  {
    if record.None? || |record.value| % 24 != 0 {
      return [], false;
    }
    var data := record.value;
    parts := [];
    var offset := 0;
    while offset < |data|
      invariant 0 <= offset <= |data| && offset % 24 == 0
      invariant parts + Decode(data[offset..]) == Decode(data)
      invariant offset > 0 ==> parts != []
    {
      assert data[offset..][..24] == data[offset..offset + 24] && data[offset..][24..] == data[offset + 24..];
      parts := parts + [DecodePart(data[offset..offset + 24])];
      offset := offset + 24;
    }
    assert data[offset..] == [] && parts + [] == parts;
    return parts, parts != [];
  }
}
