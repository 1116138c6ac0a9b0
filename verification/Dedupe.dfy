/** Choosing a title for a new download that no scheduled task and no file on disk
    has taken. Comparisons ignore case, as the file system does. */
module Dedupe {
  import opened Sets
  import opened Text

  datatype Placed = Placed(path: string, title: string)

  predicate IsSeparator(c: char) {
    c == '/' || c == '\\'
  }

  // No dot and no separator: nothing that an extension could start or end at.
  predicate Plain(s: string) {
    forall i :: 0 <= i < |s| ==> s[i] != '.' && !IsSeparator(s[i])
  }

  // From the last dot of the last path element on.
  function Ext(name: string): (e: string)
    ensures |e| <= |name|
  {
    if name == "" || IsSeparator(name[|name| - 1]) then ""
    else if name[|name| - 1] == '.' then "."
    else
      var e := Ext(name[..|name| - 1]);
      if e == "" then "" else e + [name[|name| - 1]]
  }

  function Base(title: string): string {
    var base := title[..|title| - |Ext(title)|];
    if base == "" then "download" else base
  }

  function Decimal(n: nat): (d: string)
    ensures d != "" && forall i :: 0 <= i < |d| ==> '0' <= d[i] <= '9'
  {
    var last := [('0' as int + n % 10) as char];
    if n < 10 then last else Decimal(n / 10) + last
  }

  function Number(index: nat): string {
    " (" + Decimal(index) + ")"
  }

  function WithCopySuffix(title: string, index: nat): string {
    Base(title) + Number(index) + Ext(title)
  }

  function Candidate(title: string, k: nat): string {
    if k == 0 then title else WithCopySuffix(title, k)
  }

  function Place(dir: string, name: string): string {
    dir + "\\" + name
  }

  function Key(dir: string, title: string, k: nat): string {
    Lower(Place(dir, Candidate(title, k)))
  }

  function Used(existing: seq<Placed>): (used: set<string>)
    ensures |used| <= |existing|
    decreases |existing|
  {
    if existing == [] then {}
    else
      var last := existing[|existing| - 1];
      Used(existing[..|existing| - 1]) + {Lower(Place(last.path, last.title))}
  }

  predicate PlacedAt(task: Placed, key: string) {
    Lower(Place(task.path, task.title)) == key
  }

  /** A path is used exactly when some task's path and title fold to it. */
  lemma {:induction false} UsedIff(existing: seq<Placed>, key: string)
    ensures key in Used(existing) <==> exists i :: 0 <= i < |existing| && PlacedAt(existing[i], key)
    decreases |existing|
  {
    hide Lower, Place;
    if existing != [] {
      var n := |existing| - 1;
      UsedIff(existing[..n], key);
      if key in Used(existing[..n]) {
        var i :| 0 <= i < n && PlacedAt(existing[..n][i], key);
        assert existing[..n][i] == existing[i];
      }
      if exists i :: 0 <= i < |existing| && PlacedAt(existing[i], key) {
        var i :| 0 <= i < |existing| && PlacedAt(existing[i], key);
        assert i < n ==> existing[..n][i] == existing[i];
      }
    }
  }

  // `disk` holds the folded paths at which something exists.
  predicate PathAvailable(disk: set<string>, path: string) {
    Lower(path) !in disk
  }

  predicate Free(used: set<string>, disk: set<string>, dir: string, name: string) {
    var path := Place(dir, name);
    Lower(path) !in used && PathAvailable(disk, path) && PathAvailable(disk, path + ".ghd")
  }

  // ------------------------------------------------------- the candidates differ

  lemma {:induction false} LowerJoin(a: string, b: string)
    ensures Lower(a + b) == Lower(a) + Lower(b)
  {
    assert forall i :: 0 <= i < |a + b| ==> Lower(a + b)[i] == (Lower(a) + Lower(b))[i];
  }

  lemma {:induction false} DecimalInjective(m: nat, n: nat)
    requires Decimal(m) == Decimal(n)
    ensures m == n
    decreases m
  {
    var dm, dn := Decimal(m), Decimal(n);
    assert dm[|dm| - 1] == dn[|dn| - 1];
    assert m % 10 == n % 10;
    assert (m < 10) == (n < 10) by {
      assert m < 10 <==> |dm| == 1;
      assert n < 10 <==> |dn| == 1;
    }
    if m >= 10 {
      assert dm[..|dm| - 1] == Decimal(m / 10);
      assert dn[..|dn| - 1] == Decimal(n / 10);
      DecimalInjective(m / 10, n / 10);
    }
  }

  lemma {:induction false} LongerThanTitle(title: string, k: nat)
    requires k > 0
    ensures |Candidate(title, k)| > |title|
  {}

  lemma {:induction false} LowerDigits(d: string)
    requires forall i :: 0 <= i < |d| ==> '0' <= d[i] <= '9'
    ensures Lower(d) == d
  {}

  // The folded path of a numbered candidate, with the number in plain sight.
  lemma {:induction false} KeyShape(dir: string, title: string, k: nat)
    requires k > 0
    ensures Key(dir, title, k)
            == Lower(Place(dir, Base(title)) + " (") + Decimal(k) + Lower(")" + Ext(title))
  {
    hide Lower, Decimal, Ext, Base;
    var front, back := Place(dir, Base(title)) + " (", ")" + Ext(title);
    assert Place(dir, Candidate(title, k)) == front + Decimal(k) + back;
    LowerJoin(front + Decimal(k), back);
    LowerJoin(front, Decimal(k));
    LowerDigits(Decimal(k));
  }

  /** No two candidates name the same file, case ignored. */
  lemma {:induction false} KeysDiffer(dir: string, title: string, j: nat, k: nat)
    requires j < k
    ensures Key(dir, title, j) != Key(dir, title, k)
  {
    LongerThanTitle(title, k);
    if j > 0 && Key(dir, title, j) == Key(dir, title, k) {
      KeyShape(dir, title, j);
      KeyShape(dir, title, k);
      var front, back := Lower(Place(dir, Base(title)) + " ("), Lower(")" + Ext(title));
      var dj, dk := Decimal(j), Decimal(k);
      assert dj == (front + dj + back)[|front|..|front| + |dj|];
      assert dk == (front + dk + back)[|front|..|front| + |dk|];
      DecimalInjective(j, k);
      assert false;
    }
  }

  lemma {:induction false} ExtShape(name: string)
    ensures var e := Ext(name);
            name[|name| - |e|..] == e && (e != "" ==> e[0] == '.' && Plain(e[1..]))
    decreases |name|
  {
    if name != "" && !IsSeparator(name[|name| - 1]) && name[|name| - 1] != '.' {
      ExtShape(name[..|name| - 1]);
    }
  }

  lemma {:induction false} ExtOne(name: string, c: char)
    requires c != '.' && !IsSeparator(c)
    ensures Ext(name + [c]) == if Ext(name) == "" then "" else Ext(name) + [c]
  {
    assert (name + [c])[..|name + [c]| - 1] == name;
  }

  lemma {:induction false} ExtAppend(name: string, tail: string)
    requires Plain(tail)
    ensures Ext(name + tail) == if Ext(name) == "" then "" else Ext(name) + tail
    decreases |tail|
  {
    hide Ext;
    if tail == "" {
      assert name + tail == name;
    } else {
      var n := |tail| - 1;
      ExtAppend(name, tail[..n]);
      ExtOne(name + tail[..n], tail[n]);
      assert tail == tail[..n] + [tail[n]];
      assert name + tail == name + tail[..n] + [tail[n]];
    }
  }

  lemma {:induction false} ExtOfDefault()
    ensures Ext("download") == "" && Ext("") == ""
  {
    ExtAppend("", "download");
    assert "" + "download" == "download";
  }

  lemma {:induction false} NumberPlain(k: nat)
    ensures Plain(Number(k))
  {
  }

  lemma {:induction false} BaseOfBare(title: string)
    requires Ext(title) == ""
    ensures Ext(Base(title)) == ""
  {
    ExtOfDefault();
    assert title[..|title|] == title;
  }

  lemma {:induction false} ExtFromDot(front: string, tail: string)
    requires Plain(tail)
    ensures Ext(front + ("." + tail)) == "." + tail
  {
    assert Ext(front + ".") == ".";
    hide Ext;
    ExtAppend(front + ".", tail);
    assert front + "." + tail == front + ("." + tail);
  }

  /** Every candidate has the title's extension. */
  lemma {:induction false} ExtensionKept(title: string, k: nat)
    ensures Ext(Candidate(title, k)) == Ext(title)
  {
    if k > 0 {
      NumberPlain(k);
      hide Ext, Number, Base, Plain;
      var e, front := Ext(title), Base(title) + Number(k);
      ExtShape(title);
      if e == "" {
        BaseOfBare(title);
        ExtAppend(Base(title), Number(k));
        assert front + e == front;
      } else {
        ExtFromDot(front, e[1..]);
        assert e == "." + e[1..];
      }
    }
  }

  /** The extension runs from the last dot of the last path element, and is empty exactly when
      that element has none. */
  lemma {:induction false} ExtIsFromLastDot(name: string)
    ensures Ext(name) == "" <==> forall i :: 0 <= i < |name| && name[i] == '.' ==> !Plain(name[i + 1..])
    ensures forall i :: 0 <= i < |name| && name[i] == '.' && Plain(name[i + 1..]) ==> Ext(name) == name[i..]
  {
    var e := Ext(name);
    ExtShape(name);
    hide Ext, Plain;
    forall i | 0 <= i < |name| && name[i] == '.' && Plain(name[i + 1..])
      ensures e == name[i..]
    {
      ExtFromDot(name[..i], name[i + 1..]);
      assert "." + name[i + 1..] == name[i..];
      assert name[..i] + name[i..] == name;
    }
    if e != "" {
      var i := |name| - |e|;
      assert name[i] == e[0] && name[i + 1..] == e[1..];
    }
  }

  // The number a string of decimal digits stands for.
  function Value(d: string): int {
    if d == "" then 0 else 10 * Value(d[..|d| - 1]) + (d[|d| - 1] as int - '0' as int)
  }

  lemma {:induction false} DecimalValue(n: nat)
    ensures Value(Decimal(n)) == n && (n > 0 ==> Decimal(n)[0] != '0')
    decreases n
  {
    var d := Decimal(n);
    if n < 10 {
      assert d[..0] == "";
    } else {
      DecimalValue(n / 10);
      assert d[..|d| - 1] == Decimal(n / 10);
    }
  }

  /** The k-th candidate after the title itself: the title's base (or "download" where it has
      none), the number k in parentheses, and the title's extension. */
  lemma {:induction false} CandidateShape(title: string, base: string, k: nat)
    requires title == base + Ext(title)
    ensures Candidate(title, 0) == title
    ensures k > 0 ==> exists digits ::
              && Candidate(title, k) == (if base == "" then "download" else base) + " (" + digits + ")" + Ext(title)
              && Value(digits) == k && digits != "" && digits[0] != '0'
              && forall i :: 0 <= i < |digits| ==> '0' <= digits[i] <= '9'
  {
    if k > 0 {
      DecimalValue(k);
      hide Ext, Decimal, Value;
      var digits := Decimal(k);
      assert title[..|title| - |Ext(title)|] == base;
      var front := if base == "" then "download" else base;
      assert Base(title) == front && Number(k) == " (" + digits + ")";
      hide Base, Number;
      assert Candidate(title, k) == Base(title) + Number(k) + Ext(title);
      assert front + (" (" + digits + ")") == front + " (" + digits + ")";
    }
  }

  // ------------------------------------------------------------------ pigeonhole

  // The folded paths whose record file exists.
  function Stems(disk: set<string>): set<string> {
    set p | p in disk && |p| >= 4 && p[|p| - 4..] == ".ghd" :: p[..|p| - 4]
  }

  // Everything a candidate's folded path can run into.
  function Taken(used: set<string>, disk: set<string>): set<string> {
    used + disk + Stems(disk)
  }

  lemma {:induction false} StemsSmall(disk: set<string>)
    ensures |Stems(disk)| <= |disk|
    decreases |disk|
  {
    if disk != {} {
      var p :| p in disk;
      StemsSmall(disk - {p});
      var stem := if |p| >= 4 then {p[..|p| - 4]} else {};
      assert Stems(disk) <= Stems(disk - {p}) + stem;
      SubsetSize(Stems(disk), Stems(disk - {p}) + stem);
    }
  }

  lemma {:induction false} TakenSmall(used: set<string>, disk: set<string>)
    ensures |Taken(used, disk)| <= |used| + 2 * |disk|
  {
    StemsSmall(disk);
  }

  lemma {:induction false} BlockedIsTaken(used: set<string>, disk: set<string>, dir: string, title: string, k: nat)
    requires !Free(used, disk, dir, Candidate(title, k))
    ensures Key(dir, title, k) in Taken(used, disk)
  {
    var path := Place(dir, Candidate(title, k));
    LowerJoin(path, ".ghd");
    assert Lower(".ghd") == ".ghd";
    if Lower(path + ".ghd") in disk {
      var p := Lower(path + ".ghd");
      assert p[|p| - 4..] == ".ghd" && p[..|p| - 4] == Lower(path);
    }
  }

  /** If the first n candidates are all taken, at least n names are. */
  lemma {:induction false} Pigeonhole(dir: string, title: string, n: nat, taken: set<string>)
    requires forall k :: 0 <= k < n ==> Key(dir, title, k) in taken
    ensures n <= |taken|
    decreases n
  {
    if n > 0 {
      var last := Key(dir, title, n - 1);
      forall k | 0 <= k < n - 1 ensures Key(dir, title, k) in taken - {last} {
        KeysDiffer(dir, title, k, n - 1);
      }
      Pigeonhole(dir, title, n - 1, taken - {last});
    }
  }

  // A task has the path, or something is there, or its record is.
  ghost predicate IsTaken(existing: seq<Placed>, disk: set<string>, path: string) {
    || (exists i :: 0 <= i < |existing| && PlacedAt(existing[i], Lower(path)))
    || Lower(path) in disk
    || Lower(path + ".ghd") in disk
  }

  lemma {:induction false} FreeIff(existing: seq<Placed>, disk: set<string>, dir: string, name: string)
    ensures Free(Used(existing), disk, dir, name) <==> !IsTaken(existing, disk, Place(dir, name))
  {
    hide Lower, Place, Used, PlacedAt;
    UsedIff(existing, Lower(Place(dir, name)));
  }

  // The first candidate that nothing has taken.
  ghost predicate IsFirst(existing: seq<Placed>, disk: set<string>, dir: string, title: string, k: nat) {
    && !IsTaken(existing, disk, Place(dir, Candidate(title, k)))
    && forall j :: 0 <= j < k ==> IsTaken(existing, disk, Place(dir, Candidate(title, j)))
  }

  lemma {:induction false} FirstFree(existing: seq<Placed>, disk: set<string>, dir: string, title: string, k: nat)
    requires Free(Used(existing), disk, dir, Candidate(title, k))
    requires forall j :: 0 <= j < k ==> !Free(Used(existing), disk, dir, Candidate(title, j))
    ensures IsFirst(existing, disk, dir, title, k)
  {
    hide Free, IsTaken, Candidate, Used, Place;
    FreeIff(existing, disk, dir, Candidate(title, k));
    forall j | 0 <= j < k
      ensures IsTaken(existing, disk, Place(dir, Candidate(title, j)))
    {
      FreeIff(existing, disk, dir, Candidate(title, j));
    }
  }

  /** The search ends on any finite set of tasks and files, at the first candidate
      that is free, after looking at no more than |existing| + 2 * |disk| others. */
  method DeduplicateTitle(title: string, dir: string, existing: seq<Placed>, disk: set<string>)
    returns (candidate: string)
    ensures exists k :: && 0 <= k <= |existing| + 2 * |disk|
                        && candidate == Candidate(title, k)
                        && IsFirst(existing, disk, dir, title, k)
    ensures !IsTaken(existing, disk, Place(dir, candidate)) && Ext(candidate) == Ext(title)
  {
    hide Lower, WithCopySuffix, Free, Key, Taken, Stems, Used, Ext;
    var used := Used(existing);
    ghost var taken := Taken(used, disk);
    TakenSmall(used, disk);
    candidate := title;
    var index := 1;
    while !Free(used, disk, dir, candidate)
      invariant index >= 1 && candidate == Candidate(title, index - 1)
      invariant forall j :: 0 <= j < index - 1 ==> !Free(used, disk, dir, Candidate(title, j))
      invariant index - 1 <= |taken|
      decreases |taken| - index
    {
      forall j | 0 <= j < index ensures Key(dir, title, j) in taken {
        BlockedIsTaken(used, disk, dir, title, j);
      }
      Pigeonhole(dir, title, index, taken);
      candidate := WithCopySuffix(title, index);
      index := index + 1;
    }
    ExtensionKept(title, index - 1);
    FirstFree(existing, disk, dir, title, index - 1);
  }
}
