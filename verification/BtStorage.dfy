/** BitTorrent resume storage: a flat, piece-addressed byte space laid over many files with gaps,
    empty files, and files shorter on disk than in the torrent. */
module BtStorage {
  import opened Options
  import opened Files

  datatype FileEntry = FileEntry(path: string, offset: nat, length: nat)

  // Regular files only; a missing key is a missing file.
  type Disk = map<string, seq<Byte>>

  ghost predicate Holds(f: FileEntry, g: int) {
    f.offset <= g < f.offset + f.length
  }

  // Sorted by offset, no byte in two files, no path twice.
  ghost predicate WellLaid(files: seq<FileEntry>) {
    && (forall i, j :: 0 <= i < j < |files| ==> files[i].offset <= files[j].offset)
    && (forall i, j, g :: 0 <= i < j < |files| && Holds(files[i], g) ==> !Holds(files[j], g))
    && (forall i, j :: 0 <= i < j < |files| ==> files[i].path != files[j].path)
  }

  // Where a global offset falls: in a file with so many bytes to its end, in a gap with so many
  // bytes to the next file, or behind the last file.
  datatype Place = InFile(file: FileEntry, available: int) | Gap(available: int) | Past

  function EntryAt(files: seq<FileEntry>, g: int): (p: Place)
    ensures !p.Past? ==> p.available > 0
    ensures p.InFile? ==> p.file in files && Holds(p.file, g) && p.available == p.file.offset + p.file.length - g
  {
    if files == [] then Past
    else if g < files[0].offset then Gap(files[0].offset - g)
    else if g < files[0].offset + files[0].length then InFile(files[0], files[0].offset + files[0].length - g)
    else EntryAt(files[1..], g)
  }

  // The end of the layout.
  function Extent(files: seq<FileEntry>): nat {
    if files == [] then 0
    else
      var rest := Extent(files[1..]);
      if files[0].offset + files[0].length > rest then files[0].offset + files[0].length else rest
  }

  lemma {:induction false} ExtentCovers(files: seq<FileEntry>, f: FileEntry)
    requires f in files
    ensures f.offset + f.length <= Extent(files)
  {
    if f != files[0] {
      ExtentCovers(files[1..], f);
    }
  }

  lemma {:induction false} EntryAtPlaces(files: seq<FileEntry>, g: int)
    requires WellLaid(files) && g >= 0
    ensures var p := EntryAt(files, g);
            match p {
              case InFile(f, n) => f in files && Holds(f, g) && n == f.offset + f.length - g && n > 0
              case Gap(n) => n > 0 && forall f, h :: f in files && g <= h < g + n ==> !Holds(f, h)
              case Past => g >= Extent(files) && forall f, h :: f in files && g <= h ==> !Holds(f, h)
            }
    ensures EntryAt(files, g).Past? <==> g >= Extent(files)
  {
    if files != [] {
      forall i, j, h | 0 <= i < j < |files[1..]| && Holds(files[1..][i], h)
        ensures !Holds(files[1..][j], h)
      {
        assert files[1..][i] == files[i + 1] && files[1..][j] == files[j + 1];
      }
      assert files == [files[0]] + files[1..];
      if g >= files[0].offset + files[0].length {
        EntryAtPlaces(files[1..], g);
      } else {
        ExtentCovers(files, files[0]);
      }
    }
  }

  /** A gap ends where a file of the layout begins. */
  lemma {:induction false} GapEndsAtFile(files: seq<FileEntry>, g: int)
    requires EntryAt(files, g).Gap?
    ensures exists f :: f in files && f.offset == g + EntryAt(files, g).available
    decreases files
  {
    if g < files[0].offset {
      assert files[0] in files;
    } else {
      GapEndsAtFile(files[1..], g);
      var f :| f in files[1..] && f.offset == g + EntryAt(files, g).available;
      assert f in files;
    }
  }

  // The entry of a held byte is the only file that holds it.
  lemma {:induction false} EntryIsUnique(files: seq<FileEntry>, g: int, f: FileEntry)
    requires WellLaid(files) && g >= 0 && f in files && Holds(f, g)
    ensures EntryAt(files, g) == InFile(f, f.offset + f.length - g)
  {
    EntryAtPlaces(files, g);
    if EntryAt(files, g).InFile? {
      var e := EntryAt(files, g).file;
      var i :| 0 <= i < |files| && files[i] == e;
      var j :| 0 <= j < |files| && files[j] == f;
      assert Holds(files[i], g) && Holds(files[j], g);
    }
  }

  // ---- The flat view ----

  // What one global position reads as: a byte, a hole in a short file, or nothing at all.
  datatype Cell = Value(b: Byte) | Missing | Outside

  function Stored(disk: Disk, path: string): seq<Byte> {
    if path in disk then disk[path] else []
  }

  function CellAt(files: seq<FileEntry>, disk: Disk, g: int): Cell
    requires g >= 0
  {
    match EntryAt(files, g)
    case InFile(f, _) =>
      var at := g - f.offset;
      if 0 <= at < |Stored(disk, f.path)| then Value(Stored(disk, f.path)[at]) else Missing
    case Gap(_) => Value(0)
    case Past => Outside
  }

  // The longest readable prefix of n positions from g on.
  function Read(files: seq<FileEntry>, disk: Disk, g: nat, n: nat): (r: seq<Byte>)
    ensures |r| <= n
    decreases n
  {
    if n == 0 || !CellAt(files, disk, g).Value? then []
    else [CellAt(files, disk, g).b] + Read(files, disk, g + 1, n - 1)
  }

  /** Read is exactly the flat view: each byte is the cell's value, and it stops only at a cell that
      has none. */
  lemma {:induction false} ReadCells(files: seq<FileEntry>, disk: Disk, g: nat, n: nat)
    ensures var r := Read(files, disk, g, n);
            && (forall k :: 0 <= k < |r| ==> CellAt(files, disk, g + k) == Value(r[k]))
            && (|r| < n ==> !CellAt(files, disk, g + |r|).Value?)
    decreases n
  {
    if n > 0 && CellAt(files, disk, g).Value? {
      ReadCells(files, disk, g + 1, n - 1);
      var rest := Read(files, disk, g + 1, n - 1);
      forall k | 0 <= k < |rest| + 1
        ensures CellAt(files, disk, g + k) == Value(Read(files, disk, g, n)[k])
      {
        if k > 0 { assert CellAt(files, disk, g + 1 + (k - 1)) == Value(rest[k - 1]); }
      }
    }
  }

  lemma {:induction false} ReadFullIff(files: seq<FileEntry>, disk: Disk, g: nat, n: nat)
    ensures |Read(files, disk, g, n)| == n <==> forall h :: g <= h < g + n ==> CellAt(files, disk, h).Value?
  {
    ReadCells(files, disk, g, n);
    var r := Read(files, disk, g, n);
    if |r| == n {
      forall h | g <= h < g + n
        ensures CellAt(files, disk, h).Value?
      {
        assert CellAt(files, disk, g + (h - g)) == Value(r[h - g]);
      }
    }
  }

  ghost predicate Joined(whole: seq<Byte>, front: seq<Byte>, rest: seq<Byte>) {
    whole == front + rest
  }

  lemma {:induction false} JoinedCons(run: seq<Byte>, whole: seq<Byte>, rest: seq<Byte>)
    requires run != [] && Joined(whole, run[1..], rest)
    ensures Joined([run[0]] + whole, run, rest)
  {
  }

  // A run of readable cells reads as those cells followed by what comes behind.
  lemma {:induction false} ReadRun(files: seq<FileEntry>, disk: Disk, g: nat, n: nat, run: seq<Byte>)
    requires |run| <= n && forall k :: 0 <= k < |run| ==> CellAt(files, disk, g + k) == Value(run[k])
    ensures Joined(Read(files, disk, g, n), run, Read(files, disk, g + |run|, n - |run|))
    decreases |run|
  {
    hide CellAt;
    if run != [] {
      hide Joined;
      assert CellAt(files, disk, g + 0) == Value(run[0]);
      forall k | 0 <= k < |run[1..]|
        ensures CellAt(files, disk, g + 1 + k) == Value(run[1..][k])
      {
        assert CellAt(files, disk, g + (k + 1)) == Value(run[k + 1]);
      }
      var rest, left := run[1..], n - |run|;
      ReadRun(files, disk, g + 1, n - 1, rest);
      assert g + 1 + |rest| == g + |run| && n - 1 - |rest| == left;
      JoinedCons(run, Read(files, disk, g + 1, n - 1), Read(files, disk, g + |run|, left));
    }
  }

  // One chunk: it stays within the file or gap it starts in.
  function ChunkSize(files: seq<FileEntry>, g: nat, n: nat): (k: nat)
    requires !EntryAt(files, g).Past?
    ensures k <= n && k <= EntryAt(files, g).available && (n > 0 ==> k > 0)
    ensures k == n || k == EntryAt(files, g).available
  {
    if n <= EntryAt(files, g).available then n else EntryAt(files, g).available
  }

  // What one chunk of the scan delivers.
  function Delivered(files: seq<FileEntry>, disk: Disk, g: nat, chunk: nat): seq<Byte> {
    match EntryAt(files, g)
    case InFile(f, _) =>
      var at, stored := g - f.offset, Stored(disk, f.path);
      if at >= |stored| then [] else if at + chunk <= |stored| then stored[at..at + chunk] else stored[at..]
    case Gap(_) => seq(chunk, _ => 0)
    case Past => []
  }

  // Moving on inside the same file or gap.
  lemma {:induction false} EntryShift(files: seq<FileEntry>, g: int, k: nat)
    requires !EntryAt(files, g).Past? && k < EntryAt(files, g).available
    ensures EntryAt(files, g + k) == match EntryAt(files, g)
                                     case InFile(f, n) => InFile(f, n - k)
                                     case Gap(n) => Gap(n - k)
                                     case Past => Past
  {
    if files[0].offset + files[0].length <= g {
      EntryShift(files[1..], g, k);
    }
  }

  // The bytes a chunk delivers are the cells there, and a short chunk ends at a hole.
  lemma {:induction false} DeliveredCells(files: seq<FileEntry>, disk: Disk, g: nat, chunk: nat)
    requires !EntryAt(files, g).Past? && chunk <= EntryAt(files, g).available
    ensures var bytes := Delivered(files, disk, g, chunk);
            && |bytes| <= chunk
            && (forall k :: 0 <= k < |bytes| ==> CellAt(files, disk, g + k) == Value(bytes[k]))
            && (|bytes| < chunk ==> CellAt(files, disk, g + |bytes|) == Missing)
  {
    hide EntryAt;
    var bytes := Delivered(files, disk, g, chunk);
    forall k | 0 <= k < |bytes|
      ensures CellAt(files, disk, g + k) == Value(bytes[k])
    {
      EntryShift(files, g, k);
    }
    if |bytes| < chunk {
      EntryShift(files, g, |bytes|);
    }
  }

  // The scan's step: the chunk's bytes come first, and after a short one nothing follows.
  lemma {:induction false} ReadChunk(files: seq<FileEntry>, disk: Disk, g: nat, n: nat)
    requires !EntryAt(files, g).Past? && n > 0
    ensures var chunk := ChunkSize(files, g, n);
            var bytes := Delivered(files, disk, g, chunk);
            && |bytes| <= chunk
            && Joined(Read(files, disk, g, n), bytes, Read(files, disk, g + |bytes|, n - |bytes|))
            && (|bytes| < chunk ==> Read(files, disk, g + |bytes|, n - |bytes|) == [])
  {
    hide EntryAt, Delivered;
    var chunk := ChunkSize(files, g, n);
    DeliveredCells(files, disk, g, chunk);
    ReadRun(files, disk, g, n, Delivered(files, disk, g, chunk));
  }

  lemma {:induction false} PastReads(files: seq<FileEntry>, disk: Disk, g: nat, n: nat)
    requires EntryAt(files, g).Past?
    ensures Read(files, disk, g, n) == []
  {
  }

  // What has been copied so far is the front of the whole read.
  ghost predicate SoFar(files: seq<FileEntry>, disk: Disk, g: nat, size: nat, got: seq<Byte>) {
    |got| <= size && Joined(Read(files, disk, g, size), got, Read(files, disk, g + |got|, size - |got|))
  }

  lemma {:induction false} NothingYet(files: seq<FileEntry>, disk: Disk, g: nat, size: nat)
    ensures SoFar(files, disk, g, size, [])
  {
  }

  lemma {:induction false} ReadingEnds(files: seq<FileEntry>, disk: Disk, g: nat, size: nat, got: seq<Byte>)
    requires SoFar(files, disk, g, size, got) && EntryAt(files, g + |got|).Past?
    ensures Read(files, disk, g, size) == got
  {
    PastReads(files, disk, g + |got|, size - |got|);
  }

  lemma {:induction false} ReadingDone(files: seq<FileEntry>, disk: Disk, g: nat, size: nat, got: seq<Byte>)
    requires SoFar(files, disk, g, size, got) && |got| == size
    ensures Read(files, disk, g, size) == got
  {
    assert Read(files, disk, g + |got|, 0) == [];
  }

  lemma {:induction false} SoFarFrom(files: seq<FileEntry>, disk: Disk, g: nat, size: nat, got: seq<Byte>, at: nat, left: nat)
    requires at == g + |got| && left + |got| == size
    requires Joined(Read(files, disk, g, size), got, Read(files, disk, at, left))
    ensures SoFar(files, disk, g, size, got)
  {
  }

  lemma {:induction false} JoinedNext(whole: seq<Byte>, front: seq<Byte>, bytes: seq<Byte>, rest: seq<Byte>, more: seq<Byte>)
    requires Joined(whole, front, rest) && Joined(rest, bytes, more)
    ensures Joined(whole, front + bytes, more)
    ensures more == [] ==> whole == front + bytes
  {
  }

  lemma {:induction false} ReadingGoesOn(files: seq<FileEntry>, disk: Disk, g: nat, size: nat, got: seq<Byte>)
    requires SoFar(files, disk, g, size, got) && |got| < size && !EntryAt(files, g + |got|).Past?
    ensures var chunk := ChunkSize(files, g + |got|, size - |got|);
            var bytes := Delivered(files, disk, g + |got|, chunk);
            && |bytes| <= chunk && SoFar(files, disk, g, size, got + bytes)
            && (|bytes| < chunk ==> Read(files, disk, g, size) == got + bytes)
  {
    hide EntryAt, Delivered, Joined, ChunkSize, Read;
    var at, left := g + |got|, size - |got|;
    ReadChunk(files, disk, at, left);
    var bytes := Delivered(files, disk, at, ChunkSize(files, at, left));
    JoinedNext(Read(files, disk, g, size), got, bytes, Read(files, disk, at, left),
               Read(files, disk, at + |bytes|, left - |bytes|));
    SoFarFrom(files, disk, g, size, got + bytes, at + |bytes|, left - |bytes|);
  }

  // ---- Writing ----

  function Patch(disk: Disk, path: string, at: nat, chunk: seq<Byte>): Disk {
    disk[path := Overlay(Stored(disk, path), at, chunk)]
  }

  function WriteChunk(files: seq<FileEntry>, disk: Disk, g: nat, chunk: seq<Byte>): Disk {
    match EntryAt(files, g)
    case InFile(f, _) => Patch(disk, f.path, g - f.offset, chunk)
    case Gap(_) => disk
    case Past => disk
  }

  // The disk after a write, chunk by chunk, and how many bytes were accepted.
  function Write(files: seq<FileEntry>, disk: Disk, g: nat, data: seq<Byte>): (Disk, nat)
    decreases |data|
  {
    if data == [] || EntryAt(files, g).Past? then (disk, 0)
    else
      var k := ChunkSize(files, g, |data|);
      var rest := Write(files, WriteChunk(files, disk, g, data[..k]), g + k, data[k..]);
      (rest.0, k + rest.1)
  }

  lemma {:induction false} PatchJoin(disk: Disk, path: string, at: nat, a: seq<Byte>, b: seq<Byte>)
    ensures Patch(Patch(disk, path, at, a), path, at + |a|, b) == Patch(disk, path, at, a + b)
  {
    OverlayJoin(Stored(disk, path), at, a, b);
  }

  // What one file's patch does to the flat view.
  lemma {:induction false} PatchCells(files: seq<FileEntry>, disk: Disk, f: FileEntry, g: nat, chunk: seq<Byte>, h: nat)
    requires WellLaid(files) && f in files && chunk != []
    requires f.offset <= g && g + |chunk| <= f.offset + f.length
    ensures var after := CellAt(files, Patch(disk, f.path, g - f.offset, chunk), h);
            var before := CellAt(files, disk, h);
            if g <= h < g + |chunk| then after == Value(chunk[h - g])
            else after == before || (before == Missing && after == Value(0) && Holds(f, h))
  {
    EntryAtPlaces(files, h);
    if Holds(f, h) {
      EntryIsUnique(files, h, f);
    } else if EntryAt(files, h).InFile? {
      var e := EntryAt(files, h).file;
      var i :| 0 <= i < |files| && files[i] == e;
      var j :| 0 <= j < |files| && files[j] == f;
      assert e.path != f.path;
    }
  }

  // How many of n positions from g on lie inside the layout.
  function Room(files: seq<FileEntry>, g: nat, n: nat): nat {
    if g >= Extent(files) then 0 else if g + n <= Extent(files) then n else Extent(files) - g
  }

  ghost predicate Written(files: seq<FileEntry>, before: Disk, after: Disk, g: nat, data: seq<Byte>, h: nat)
    requires WellLaid(files)
  {
    var was, now := CellAt(files, before, h), CellAt(files, after, h);
    if g <= h < g + |data| && EntryAt(files, h).InFile? then now == Value(data[h - g])
    else now == was || (was == Missing && now == Value(0))
  }

  // One chunk, then the rest: together they are the write.
  lemma {:induction false} WrittenChain(files: seq<FileEntry>, disk: Disk, mid: Disk, after: Disk, g: nat, data: seq<Byte>, k: nat, h: nat)
    requires WellLaid(files) && k <= |data|
    requires Written(files, disk, mid, g, data[..k], h) && Written(files, mid, after, g + k, data[k..], h)
    ensures Written(files, disk, after, g, data, h)
  {
    hide EntryAt;
    EntryAtPlaces(files, h);
  }

  lemma {:induction false} ChunkWritten(files: seq<FileEntry>, disk: Disk, g: nat, chunk: seq<Byte>, h: nat)
    requires WellLaid(files) && chunk != [] && !EntryAt(files, g).Past? && |chunk| <= EntryAt(files, g).available
    ensures Written(files, disk, WriteChunk(files, disk, g, chunk), g, chunk, h)
  {
    hide Patch, EntryAt;
    if EntryAt(files, g).InFile? {
      PatchCells(files, disk, EntryAt(files, g).file, g, chunk, h);
    } else {
      EntryAtPlaces(files, g);
      EntryAtPlaces(files, h);
    }
  }

  lemma {:induction false} NothingWritten(files: seq<FileEntry>, disk: Disk, g: nat, data: seq<Byte>, h: nat)
    requires WellLaid(files) && (data == [] || EntryAt(files, g).Past?)
    ensures Written(files, disk, disk, g, data, h)
  {
    EntryAtPlaces(files, g);
    EntryAtPlaces(files, h);
  }

  // A gap ends at a file, and so inside the layout.
  lemma {:induction false} GapEnds(files: seq<FileEntry>, g: int)
    requires EntryAt(files, g).Gap?
    ensures g + EntryAt(files, g).available <= Extent(files)
  {
    if g < files[0].offset {
      ExtentCovers(files, files[0]);
    } else {
      GapEnds(files[1..], g);
    }
  }

  lemma {:induction false} StepRoom(files: seq<FileEntry>, g: nat, k: nat, n: nat)
    requires WellLaid(files) && 0 < k <= n
    requires EntryAt(files, g).InFile? || EntryAt(files, g).Gap?
    requires k <= EntryAt(files, g).available
    ensures Room(files, g, n) == k + Room(files, g + k, n - k)
  {
    EntryAtPlaces(files, g);
    if EntryAt(files, g).InFile? {
      ExtentCovers(files, EntryAt(files, g).file);
    } else {
      GapEnds(files, g);
    }
  }

  /** A write accepts what fits the layout; every file position of its extent then holds its byte,
      and elsewhere the flat view is unchanged except that holes in a file that grew read as zeros. */
  lemma {:induction false} WriteEffect(files: seq<FileEntry>, disk: Disk, g: nat, data: seq<Byte>)
    requires WellLaid(files)
    ensures Write(files, disk, g, data).1 == Room(files, g, |data|)
    ensures forall h: nat :: Written(files, disk, Write(files, disk, g, data).0, g, data, h)
    decreases |data|
  {
    hide EntryAt, WellLaid, Written, WriteChunk;
    EntryAtPlaces(files, g);
    var after := Write(files, disk, g, data).0;
    if data == [] || EntryAt(files, g).Past? {
      forall h: nat
        ensures Written(files, disk, after, g, data, h)
      {
        NothingWritten(files, disk, g, data, h);
      }
    } else {
      var k := ChunkSize(files, g, |data|);
      var mid := WriteChunk(files, disk, g, data[..k]);
      WriteEffect(files, mid, g + k, data[k..]);
      StepRoom(files, g, k, |data|);
      forall h: nat
        ensures Written(files, disk, after, g, data, h)
      {
        ChunkWritten(files, disk, g, data[..k], h);
        WrittenChain(files, disk, mid, after, g, data, k, h);
      }
    }
  }

  lemma {:induction false} WriteNothing(files: seq<FileEntry>, disk: Disk, g: nat, a: seq<Byte>, b: seq<Byte>)
    requires WellLaid(files) && (a == [] || b == []) && (a == [] || g + |a| <= Extent(files))
    ensures var first := Write(files, disk, g, a);
            var second := Write(files, first.0, g + |a|, b);
            first.1 == |a| && Write(files, disk, g, a + b) == (second.0, |a| + second.1)
  {
    hide EntryAt, WellLaid, WriteChunk;
    if a == [] {
      assert a + b == b;
    } else {
      assert a + b == a;
      WriteEffect(files, disk, g, a);
    }
  }

  lemma {:induction false} WriteHead(files: seq<FileEntry>, disk: Disk, g: nat, data: seq<Byte>)
    requires data != [] && !EntryAt(files, g).Past?
    ensures var k := ChunkSize(files, g, |data|);
            var rest := Write(files, WriteChunk(files, disk, g, data[..k]), g + k, data[k..]);
            Write(files, disk, g, data) == (rest.0, k + rest.1)
  {
  }

  // The seam lies behind the chunk the write starts in.
  lemma {:induction false} WriteSplitLater(files: seq<FileEntry>, disk: Disk, g: nat, a: seq<Byte>, b: seq<Byte>)
    requires a != [] && !EntryAt(files, g).Past? && |a| >= EntryAt(files, g).available
    requires var k := EntryAt(files, g).available;
             var mid := WriteChunk(files, disk, g, a[..k]);
             var first := Write(files, mid, g + k, a[k..]);
             var second := Write(files, first.0, g + |a|, b);
             first.1 == |a| - k && Write(files, mid, g + k, a[k..] + b) == (second.0, |a| - k + second.1)
    ensures var first := Write(files, disk, g, a);
            var second := Write(files, first.0, g + |a|, b);
            first.1 == |a| && Write(files, disk, g, a + b) == (second.0, |a| + second.1)
  {
    hide EntryAt, WriteChunk, Write;
    var k, ab := EntryAt(files, g).available, a + b;
    assert ChunkSize(files, g, |a|) == k == ChunkSize(files, g, |ab|);
    assert ab[..k] == a[..k] && ab[k..] == a[k..] + b;
    WriteHead(files, disk, g, a);
    WriteHead(files, disk, g, ab);
  }

  lemma {:induction false} ChunkJoin(files: seq<FileEntry>, disk: Disk, g: nat, a: seq<Byte>, b: seq<Byte>)
    requires !EntryAt(files, g).Past? && |a| < EntryAt(files, g).available
    ensures WriteChunk(files, WriteChunk(files, disk, g, a), g + |a|, b) == WriteChunk(files, disk, g, a + b)
  {
    hide EntryAt, Patch;
    EntryShift(files, g, |a|);
    if EntryAt(files, g).InFile? {
      var f := EntryAt(files, g).file;
      PatchJoin(disk, f.path, g - f.offset, a, b);
    }
  }

  // The seam lies inside one file or gap.
  lemma {:induction false} WriteSplitInside(files: seq<FileEntry>, disk: Disk, g: nat, a: seq<Byte>, b: seq<Byte>)
    requires a != [] && b != [] && !EntryAt(files, g).Past? && |a| < EntryAt(files, g).available
    ensures var first := Write(files, disk, g, a);
            var second := Write(files, first.0, g + |a|, b);
            first.1 == |a| && Write(files, disk, g, a + b) == (second.0, |a| + second.1)
  {
    hide EntryAt, WriteChunk;
    EntryShift(files, g, |a|);
    var ab := a + b;
    var k := ChunkSize(files, g, |ab|);
    var m := k - |a|;
    assert a[..|a|] == a && a[|a|..] == [];
    assert Write(files, disk, g, a) == (WriteChunk(files, disk, g, a), |a|);
    assert ChunkSize(files, g + |a|, |b|) == m;
    assert ab[..k] == a + b[..m] && ab[k..] == b[m..];
    ChunkJoin(files, disk, g, a, b[..m]);
  }

  /** Writing b1 ++ b2 is writing b1 and then b2 right behind it, whenever b1 fits. */
  lemma {:induction false} WriteSplit(files: seq<FileEntry>, disk: Disk, g: nat, a: seq<Byte>, b: seq<Byte>)
    requires WellLaid(files) && (a == [] || g + |a| <= Extent(files))
    ensures var first := Write(files, disk, g, a);
            var second := Write(files, first.0, g + |a|, b);
            first.1 == |a| && Write(files, disk, g, a + b) == (second.0, |a| + second.1)
    decreases |a|
  {
    hide EntryAt, WellLaid, WriteChunk, Write;
    if a == [] || b == [] {
      WriteNothing(files, disk, g, a, b);
    } else {
      EntryAtPlaces(files, g);
      if |a| >= EntryAt(files, g).available {
        var k := EntryAt(files, g).available;
        WriteSplit(files, WriteChunk(files, disk, g, a[..k]), g + k, a[k..], b);
        WriteSplitLater(files, disk, g, a, b);
      } else {
        WriteSplitInside(files, disk, g, a, b);
      }
    }
  }

  /** A read after a write returns the written bytes where there are files and zeros in the gaps. */
  lemma {:induction false} ReadAfterWrite(files: seq<FileEntry>, disk: Disk, g: nat, data: seq<Byte>)
    requires WellLaid(files) && (data == [] || g + |data| <= Extent(files))
    ensures var r := Read(files, Write(files, disk, g, data).0, g, |data|);
            |r| == |data| && forall k :: 0 <= k < |data| ==> r[k] == if EntryAt(files, g + k).InFile? then data[k] else 0
  {
    var after := Write(files, disk, g, data).0;
    WriteEffect(files, disk, g, data);
    forall h | g <= h < g + |data|
      ensures CellAt(files, after, h) == Value(if EntryAt(files, h).InFile? then data[h - g] else 0)
    {
      EntryAtPlaces(files, h);
      assert Written(files, disk, after, g, data, h);
    }
    ReadFullIff(files, after, g, |data|);
    ReadCells(files, after, g, |data|);
    var r := Read(files, after, g, |data|);
    forall k | 0 <= k < |data|
      ensures r[k] == if EntryAt(files, g + k).InFile? then data[k] else 0
    {
      assert CellAt(files, after, g + k) == Value(r[k]);
      assert CellAt(files, after, g + k) == Value(if EntryAt(files, g + k).InFile? then data[g + k - g] else 0);
    }
  }

  /** A write never takes a readable byte away from an extent it does not touch: what was read there is
      read again, possibly followed by zeros of a file that grew. */
  lemma {:induction false} OtherExtentsKeep(files: seq<FileEntry>, disk: Disk, g: nat, data: seq<Byte>, other: nat, n: nat)
    requires WellLaid(files) && (other + n <= g || g + |data| <= other)
    ensures var was := Read(files, disk, other, n);
            var now := Read(files, Write(files, disk, g, data).0, other, n);
            && |was| <= |now| && now[..|was|] == was
            && forall k :: |was| <= k < |now| && CellAt(files, disk, other + k) == Missing ==> now[k] == 0
  {
    var after := Write(files, disk, g, data).0;
    var was := Read(files, disk, other, n);
    WriteEffect(files, disk, g, data);
    ReadCells(files, disk, other, n);
    forall k | 0 <= k < |was|
      ensures CellAt(files, after, other + k) == Value(was[k])
    {
      assert Written(files, disk, after, g, data, other + k);
    }
    ReadRun(files, after, other, n, was);
    ReadCells(files, after, other, n);
    var now := Read(files, after, other, n);
    forall k | |was| <= k < |now| && CellAt(files, disk, other + k) == Missing
      ensures now[k] == 0
    {
      assert Written(files, disk, after, g, data, other + k);
      assert CellAt(files, after, other + k) == Value(now[k]);
    }
  }

  // ---- The extent check ----

  // Every file that shares bytes with [offset, end) is long enough on disk.
  ghost predicate LongEnough(f: FileEntry, disk: Disk, offset: nat, end: nat) {
    var start := if offset > f.offset then offset else f.offset;
    var stop := if end < f.offset + f.length then end else f.offset + f.length;
    stop > start ==> f.path in disk && |disk[f.path]| >= stop - f.offset
  }

  ghost predicate Checked(files: seq<FileEntry>, disk: Disk, offset: nat, length: nat) {
    forall f :: f in files ==> LongEnough(f, disk, offset, offset + length)
  }

  lemma {:induction false} CheckedCell(files: seq<FileEntry>, disk: Disk, offset: nat, end: nat, h: nat)
    requires WellLaid(files) && offset <= h < end <= Extent(files)
    requires forall f :: f in files ==> LongEnough(f, disk, offset, end)
    ensures CellAt(files, disk, h).Value?
  {
    EntryAtPlaces(files, h);
    if EntryAt(files, h).InFile? {
      assert LongEnough(EntryAt(files, h).file, disk, offset, end);
    }
  }

  lemma {:induction false} ReadableFile(files: seq<FileEntry>, disk: Disk, offset: nat, end: nat, f: FileEntry)
    requires WellLaid(files) && f in files
    requires forall h :: offset <= h < end ==> CellAt(files, disk, h).Value?
    ensures LongEnough(f, disk, offset, end)
  {
    var start := if offset > f.offset then offset else f.offset;
    var stop := if end < f.offset + f.length then end else f.offset + f.length;
    if stop > start {
      EntryIsUnique(files, stop - 1, f);
      assert CellAt(files, disk, stop - 1).Value?;
    }
  }

  /** For an extent inside the layout the interval test succeeds exactly when the scan reads it whole. */
  lemma {:induction false} CheckMeansReadable(files: seq<FileEntry>, disk: Disk, offset: nat, length: nat)
    requires WellLaid(files) && offset + length <= Extent(files)
    ensures Checked(files, disk, offset, length) <==> |Read(files, disk, offset, length)| == length
  {
    hide Read, EntryAt, WellLaid, CellAt, LongEnough;
    ReadFullIff(files, disk, offset, length);
    if Checked(files, disk, offset, length) {
      forall h | offset <= h < offset + length
        ensures CellAt(files, disk, h).Value?
      {
        CheckedCell(files, disk, offset, offset + length, h);
      }
    }
    if |Read(files, disk, offset, length)| == length {
      forall f | f in files
        ensures LongEnough(f, disk, offset, offset + length)
      {
        ReadableFile(files, disk, offset, offset + length, f);
      }
    }
  }

  // ---- The storage object ----

  datatype Error = NoError | Eof | ShortWrite | Invalid

  datatype Piece = Piece(index: nat, offset: nat, length: nat)

  // Pieces are cut at multiples of the piece length; the last one may be shorter.
  ghost predicate IsPiece(p: Piece, pieceLength: nat) {
    p.offset == p.index * pieceLength && p.length <= pieceLength
  }

  lemma {:induction false} NextPiece(i: nat, j: nat, pieceLength: nat)
    requires i < j
    ensures i * pieceLength + pieceLength <= j * pieceLength
  {
    assert (j - i - 1) * pieceLength >= 0;
    assert j * pieceLength == i * pieceLength + pieceLength + (j - i - 1) * pieceLength;
  }

  /** Writing inside one piece never changes what was read of another. */
  lemma {:induction false} PiecesKeepApart(files: seq<FileEntry>, disk: Disk, pieceLength: nat, p: Piece, q: Piece, offset: nat, data: seq<Byte>)
    requires WellLaid(files) && IsPiece(p, pieceLength) && IsPiece(q, pieceLength) && p.index != q.index
    requires offset + |data| <= p.length
    ensures var was := Read(files, disk, q.offset, q.length);
            var now := Read(files, Write(files, disk, p.offset + offset, data).0, q.offset, q.length);
            && |was| <= |now| && now[..|was|] == was
            && forall k :: |was| <= k < |now| && CellAt(files, disk, q.offset + k) == Missing ==> now[k] == 0
  {
    hide EntryAt, CellAt, Read, Write, WellLaid;
    if p.index < q.index {
      NextPiece(p.index, q.index, pieceLength);
    } else {
      NextPiece(q.index, p.index, pieceLength);
    }
    OtherExtentsKeep(files, disk, p.offset + offset, data, q.offset, q.length);
  }

  class TorrentStorage {
    const files: seq<FileEntry>
    var disk: Disk
    var completion: map<nat, bool>

    constructor (layout: seq<FileEntry>, initial: Disk, index: map<nat, bool>)
      requires WellLaid(layout)
      ensures files == layout && disk == initial && completion == index
    {
      files, disk, completion := layout, initial, index;
    }

    /** The linear scan finds the file, the gap, or the end. */
    method Locate(g: int) returns (place: Place)
      ensures place == EntryAt(files, g)
    {
      for i := 0 to |files|
        invariant EntryAt(files, g) == EntryAt(files[i..], g)
      {
        assert files[i..][0] == files[i] && files[i..][1..] == files[i + 1..];
        if g < files[i].offset {
          return Gap(files[i].offset - g);
        }
        if g < files[i].offset + files[i].length {
          return InFile(files[i], files[i].offset + files[i].length - g);
        }
      }
      return Past;
    }

    /** Fills the front of the buffer with the readable prefix and leaves the rest of it alone. */
    method ReadAt(buffer: array<Byte>, size: nat, g: nat) returns (n: nat, err: Error)
      requires WellLaid(files) && size <= buffer.Length
      modifies buffer
      ensures n <= size && buffer[..n] == Read(files, disk, g, size)
      ensures err == if n == size then NoError else Eof
      ensures buffer[n..] == old(buffer[n..])
    {
      hide EntryAt, Delivered, Read, WellLaid, SoFar, Put;
      n, err := 0, NoError;
      ghost var was, got := buffer[..], [];
      NothingYet(files, disk, g, size);
      PutNothing(was, 0);
      while n < size
        invariant |got| == n <= size && buffer[..] == Put(was, 0, got) && err == NoError
        invariant SoFar(files, disk, g, size, got)
      {
        var place := Locate(g + n);
        if place.Past? {
          ReadingEnds(files, disk, g, size, got);
          err := Eof;
          break;
        }
        ReadingGoesOn(files, disk, g, size, got);
        var chunk := if size - n <= place.available then size - n else place.available;
        var bytes := ReadOnce(place, g + n, chunk);
        CopyInto(buffer, n, bytes);
        PutTwice(was, got, bytes);
        got := got + bytes;
        n := n + |bytes|;
        if |bytes| != chunk {
          err := Eof;
          break;
        }
      }
      if err == NoError { ReadingDone(files, disk, g, size, got); }
      PutParts(was, got);
      assert buffer[..n] == buffer[..][..n] && buffer[n..] == buffer[..][n..] && old(buffer[n..]) == was[n..];
    }

    static function Put(s: seq<Byte>, at: nat, bytes: seq<Byte>): (r: seq<Byte>)
      requires at + |bytes| <= |s|
      ensures |r| == |s|
    {
      s[..at] + bytes + s[at + |bytes|..]
    }

    static lemma {:induction false} PutTwice(was: seq<Byte>, got: seq<Byte>, bytes: seq<Byte>)
      requires |got| + |bytes| <= |was|
      ensures Put(Put(was, 0, got), |got|, bytes) == Put(was, 0, got + bytes)
    {
    }

    static lemma {:induction false} PutParts(was: seq<Byte>, got: seq<Byte>)
      requires |got| <= |was|
      ensures Put(was, 0, got)[..|got|] == got && Put(was, 0, got)[|got|..] == was[|got|..]
    {
    }

    static lemma {:induction false} PutNext(was: seq<Byte>, at: nat, bytes: seq<Byte>, x: Byte)
      requires at + |bytes| < |was|
      ensures Put(was, at, bytes)[at + |bytes| := x] == Put(was, at, bytes + [x])
    {
    }

    // Zeros for a gap, the file's own bytes otherwise, fewer if it is short or missing.
    method ReadOnce(place: Place, g: nat, chunk: nat) returns (bytes: seq<Byte>)
      requires place == EntryAt(files, g) && !place.Past?
      ensures bytes == Delivered(files, disk, g, chunk)
    {
      if place.Gap? {
        return seq(chunk, _ => 0);
      }
      if place.file.path !in disk {
        return [];
      }
      var at, stored := g - place.file.offset, disk[place.file.path];
      bytes := if at >= |stored| then [] else if at + chunk <= |stored| then stored[at..at + chunk] else stored[at..];
    }

    static method CopyInto(buffer: array<Byte>, at: nat, bytes: seq<Byte>)
      requires at + |bytes| <= buffer.Length
      modifies buffer
      ensures buffer[..] == Put(old(buffer[..]), at, bytes)
    {
      hide Put;
      ghost var was := buffer[..];
      PutNothing(was, at);
      for i := 0 to |bytes|
        invariant buffer[..] == Put(was, at, bytes[..i])
      {
        PutNext(was, at, bytes[..i], bytes[i]);
        assert bytes[..i + 1] == bytes[..i] + [bytes[i]];
        buffer[at + i] := bytes[i];
      }
      assert bytes[..|bytes|] == bytes;
    }

    static lemma {:induction false} PutNothing(was: seq<Byte>, at: nat)
      requires at <= |was|
      ensures Put(was, at, []) == was
    {
    }

    method WriteAt(data: seq<Byte>, g: nat) returns (n: nat, err: Error)
      modifies this`disk
      ensures (disk, n) == Write(files, old(disk), g, data)
      ensures err == if n == |data| then NoError else ShortWrite
    {
      hide EntryAt, Patch;
      n := 0;
      var buffer := data;
      while |buffer| > 0
        invariant n + |buffer| == |data|
        invariant var rest := Write(files, disk, g + n, buffer); Write(files, old(disk), g, data) == (rest.0, n + rest.1)
        decreases |buffer|
      {
        var place := Locate(g + n);
        if place.Past? {
          return n, ShortWrite;
        }
        var chunk := if |buffer| <= place.available then |buffer| else place.available;
        if place.InFile? {
          disk := Patch(disk, place.file.path, g + n - place.file.offset, buffer[..chunk]);
        }
        buffer, n := buffer[chunk..], n + chunk;
      }
      err := NoError;
    }

    method CheckExtent(offset: nat, length: nat) returns (ok: bool)
      ensures ok <==> Checked(files, disk, offset, length)
    {
      var end := offset + length;
      for i := 0 to |files|
        invariant forall k :: 0 <= k < i ==> LongEnough(files[k], disk, offset, end)
      {
        var f := files[i];
        var start := if offset > f.offset then offset else f.offset;
        var stop := if end < f.offset + f.length then end else f.offset + f.length;
        if stop > start && (f.path !in disk || |disk[f.path]| < stop - f.offset) {
          assert f in files && !LongEnough(f, disk, offset, end);
          return false;
        }
      }
      return true;
    }

    /** A piece read is clipped to the piece. */
    method PieceReadAt(p: Piece, buffer: array<Byte>, offset: int) returns (n: nat, err: Error)
      requires WellLaid(files)
      modifies buffer
      ensures offset < 0 ==> err == Invalid && n == 0
      ensures offset >= p.length ==> n == 0 && err == if offset < 0 then Invalid else Eof
      ensures 0 <= offset < p.length ==>
                var want := if buffer.Length <= p.length - offset then buffer.Length else p.length - offset;
                n <= want && buffer[..n] == Read(files, disk, p.offset + offset, want) && err == if n == want then NoError else Eof
      ensures n <= buffer.Length && buffer[n..] == old(buffer[n..])
    {
      if offset < 0 {
        return 0, Invalid;
      }
      if offset >= p.length {
        return 0, Eof;
      }
      var want := if buffer.Length <= p.length - offset then buffer.Length else p.length - offset;
      n, err := ReadAt(buffer, want, p.offset + offset);
    }

    /** A piece write that would leave the piece writes nothing. */
    method PieceWriteAt(p: Piece, data: seq<Byte>, offset: int) returns (n: nat, err: Error)
      modifies this`disk
      ensures offset < 0 || offset + |data| > p.length ==> err == Invalid && n == 0 && disk == old(disk)
      ensures 0 <= offset && offset + |data| <= p.length ==>
                (disk, n) == Write(files, old(disk), p.offset + offset, data) && err == if n == |data| then NoError else ShortWrite
    {
      if offset < 0 || offset + |data| > p.length {
        return 0, Invalid;
      }
      n, err := WriteAt(data, p.offset + offset);
    }

    /** A piece is reported complete only if the index says so and it can be read back whole; a stale
        index entry is cleared. */
    method Completion(p: Piece) returns (complete: bool)
      requires WellLaid(files) && p.offset + p.length <= Extent(files)
      modifies this`completion
      ensures complete <==> p.index in old(completion) && old(completion)[p.index]
                            && |Read(files, disk, p.offset, p.length)| == p.length
      ensures completion == if p.index in old(completion) && old(completion)[p.index] && !complete
                            then old(completion)[p.index := false] else old(completion)
    {
      if p.index !in completion || !completion[p.index] {
        return false;
      }
      CheckMeansReadable(files, disk, p.offset, p.length);
      complete := CheckExtent(p.offset, p.length);
      if !complete {
        completion := completion[p.index := false];
      }
    }
  }
}
