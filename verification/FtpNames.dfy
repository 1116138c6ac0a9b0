/** Local names for remote FTP entries: splitting and joining paths, and safe file names. */
module FtpNames {
  import opened Text

  // ---- Splitting and joining at '/' ----

  function Split(s: string): (r: seq<string>)
    ensures r != []
  {
    if s == "" then [""]
    else
      var rest := Split(s[1..]);
      if s[0] == '/' then [""] + rest else [[s[0]] + rest[0]] + rest[1..]
  }

  function Join(parts: seq<string>): string {
    if parts == [] then "" else if |parts| == 1 then parts[0] else parts[0] + "/" + Join(parts[1..])
  }

  ghost predicate NoSlash(s: string) {
    forall i :: 0 <= i < |s| ==> s[i] != '/'
  }

  lemma {:induction false} SplitFirst(a: string, rest: string)
    requires NoSlash(a)
    ensures Split(a + "/" + rest) == [a] + Split(rest)
  {
    var s := a + "/" + rest;
    if a == "" {
      assert s[1..] == rest;
    } else {
      assert s[1..] == a[1..] + "/" + rest;
      SplitFirst(a[1..], rest);
      assert [a[0]] + a[1..] == a;
    }
  }

  lemma {:induction false} SplitWhole(a: string)
    requires NoSlash(a)
    ensures Split(a) == [a]
  {
    if a != "" {
      SplitWhole(a[1..]);
      assert [a[0]] + a[1..] == a;
    }
  }

  /** Joining slash-free components and splitting again gives the components. */
  lemma {:induction false} SplitJoin(parts: seq<string>)
    requires parts != [] && forall p :: p in parts ==> NoSlash(p)
    ensures Split(Join(parts)) == parts
  {
    if |parts| == 1 {
      SplitWhole(parts[0]);
    } else {
      SplitJoin(parts[1..]);
      SplitFirst(parts[0], Join(parts[1..]));
    }
  }

  /** Splitting a path and joining its components gives the path. */
  lemma {:induction false} JoinSplit(s: string)
    ensures Join(Split(s)) == s
  {
    if s != "" {
      JoinSplit(s[1..]);
      var rest := Split(s[1..]);
      assert s == [s[0]] + s[1..];
      if s[0] == '/' {
        assert ([""] + rest)[1..] == rest;
      } else {
        assert ([[s[0]] + rest[0]] + rest[1..])[1..] == rest[1..];
      }
    }
  }

  lemma {:induction false} SplitNoSlash(s: string)
    ensures forall p :: p in Split(s) ==> NoSlash(p)
  {
    if s != "" {
      SplitNoSlash(s[1..]);
      var rest := Split(s[1..]);
      assert NoSlash(rest[0]);
      forall p | p in Split(s)
        ensures NoSlash(p)
      {
        assert p == "" || p == [s[0]] + rest[0] || p in rest;
      }
    }
  }

  // ---- Safe file names ----

  const UNSAFE := "<>:\"/\\|?*"

  predicate Unsafe(c: char) {
    c as int < 32 || c in UNSAFE
  }

  function Masked(name: string): (r: string)
    ensures |r| == |name|
  {
    seq(|name|, i requires 0 <= i < |name| => if Unsafe(name[i]) then '_' else name[i])
  }

  function TrimRight(s: string): (r: string)
    ensures |r| <= |s| && r == s[..|r|]
    ensures r != "" ==> r[|r| - 1] != '.' && r[|r| - 1] != ' '
  {
    if s != "" && (s[|s| - 1] == '.' || s[|s| - 1] == ' ') then TrimRight(s[..|s| - 1]) else s
  }

  // The name up to its first dot.
  function Stem(name: string): string {
    if name == "" || name[0] == '.' then "" else [name[0]] + Stem(name[1..])
  }

  // Names Windows reserves for devices.
  predicate Device(name: string) {
    var base := Upper(Stem(name));
    || base == "CON" || base == "PRN" || base == "AUX" || base == "NUL"
    || (|base| == 4 && (base[..3] == "COM" || base[..3] == "LPT") && '1' <= base[3] <= '9')
  }

  function SafeFileName(name: string): string {
    var n := TrimRight(Masked(name));
    if n == "" || n == "." then "download" else if Device(n) then "_" + n else n
  }

  ghost predicate IsSafe(name: string) {
    && name != ""
    && (forall i :: 0 <= i < |name| ==> !Unsafe(name[i]))
    && name[|name| - 1] != '.' && name[|name| - 1] != ' '
    && !Device(name)
  }

  lemma {:induction false} UnderscoreIsNoDevice(name: string)
    ensures !Device("_" + name)
  {
    assert ("_" + name)[0] == '_' && ("_" + name)[1..] == name;
    var base := Upper(Stem("_" + name));
    assert base[0] == '_';
    assert base != "CON" && base != "PRN" && base != "AUX" && base != "NUL" by {
      assert "CON"[0] == 'C' && "PRN"[0] == 'P' && "AUX"[0] == 'A' && "NUL"[0] == 'N';
    }
    if |base| == 4 {
      assert base[..3][0] == '_' && "COM"[0] == 'C' && "LPT"[0] == 'L';
    }
  }

  lemma {:induction false} LettersAreSafe(c: char)
    requires 'a' <= c <= 'z' || c == '_'
    ensures !Unsafe(c)
  {
  }

  lemma {:induction false} LongNamesAreNoDevices(name: string)
    requires |Stem(name)| > 4
    ensures !Device(name)
  {
  }

  lemma {:induction false} StemIs(stem: string, rest: string)
    requires (forall i :: 0 <= i < |stem| ==> stem[i] != '.') && (rest == "" || rest[0] == '.')
    ensures Stem(stem + rest) == stem
  {
    if stem != "" {
      StemIs(stem[1..], rest);
      assert (stem + rest)[1..] == stem[1..] + rest;
      assert [stem[0]] + stem[1..] == stem;
    } else {
      assert stem + rest == rest;
    }
  }

  lemma {:induction false} UpperIs(s: string, low: string)
    requires Lower(low) == low
    ensures Upper(s) == Upper(low) <==> Lower(s) == low
  {
    FoldedSameIff(s, low);
  }

  lemma {:induction false} ReservedWords()
    ensures Upper("con") == "CON" && Upper("prn") == "PRN" && Upper("aux") == "AUX" && Upper("nul") == "NUL"
    ensures Upper("com") == "COM" && Upper("lpt") == "LPT"
    ensures Lower("con") == "con" && Lower("prn") == "prn" && Lower("aux") == "aux" && Lower("nul") == "nul"
    ensures Lower("com") == "com" && Lower("lpt") == "lpt"
  {
  }

  lemma {:induction false} UpperPrefix(s: string)
    requires |s| == 4
    ensures Upper(s)[..3] == Upper(s[..3]) && ('1' <= Upper(s)[3] <= '9' <==> '1' <= s[3] <= '9')
  {
  }

  /** The device names, whatever the case of their letters and whatever follows their first dot. */
  lemma {:induction false} DeviceIff(stem: string, rest: string)
    requires (forall i :: 0 <= i < |stem| ==> stem[i] != '.') && (rest == "" || rest[0] == '.')
    ensures Device(stem + rest) <==>
            || Lower(stem) == "con" || Lower(stem) == "prn" || Lower(stem) == "aux" || Lower(stem) == "nul"
            || (|stem| == 4 && (Lower(stem[..3]) == "com" || Lower(stem[..3]) == "lpt") && '1' <= stem[3] <= '9')
  {
    hide Lower, Upper, Stem;
    StemIs(stem, rest);
    ReservedWords();
    UpperIs(stem, "con");
    UpperIs(stem, "prn");
    UpperIs(stem, "aux");
    UpperIs(stem, "nul");
    if |stem| == 4 {
      UpperPrefix(stem);
      UpperIs(stem[..3], "com");
      UpperIs(stem[..3], "lpt");
    }
  }

  lemma {:induction false} StemWhole(s: string)
    requires forall i :: 0 <= i < |s| ==> s[i] != '.'
    ensures Stem(s) == s
  {
    if s != "" {
      StemWhole(s[1..]);
      assert [s[0]] + s[1..] == s;
    }
  }

  lemma {:induction false} DownloadIsSafe()
    ensures IsSafe("download")
  {
    hide Unsafe, Device;
    var d := "download";
    assert |d| == 8 && d[7] == 'd';
    forall i | 0 <= i < |d|
      ensures 'a' <= d[i] <= 'z' && !Unsafe(d[i])
    {
      LettersAreSafe(d[i]);
    }
    StemWhole(d);
    LongNamesAreNoDevices(d);
  }

  lemma {:induction false} MaskedIsClean(name: string)
    ensures forall i :: 0 <= i < |name| ==> !Unsafe(Masked(name)[i])
    ensures (forall i :: 0 <= i < |name| ==> !Unsafe(name[i])) ==> Masked(name) == name
  {
    assert !Unsafe('_');
  }

  /** Every safe name is safe: no separators, control characters, trailing dots or device names. */
  lemma {:induction false} SafeFileNameIsSafe(name: string)
    ensures IsSafe(SafeFileName(name))
  {
    hide Device, Unsafe, Masked;
    MaskedIsClean(name);
    DownloadIsSafe();
    var n := TrimRight(Masked(name));
    forall i | 0 <= i < |n|
      ensures !Unsafe(n[i])
    {
      assert n[i] == Masked(name)[i];
    }
    UnderscoreIsNoDevice(n);
    LettersAreSafe('_');
  }

  // What is kept of a name: unsafe characters become '_', then blanks and dots go from its end.
  ghost predicate IsKept(name: string, kept: string) {
    && |kept| <= |name|
    && (forall i :: 0 <= i < |kept| ==> kept[i] == if Unsafe(name[i]) then '_' else name[i])
    && (forall i :: |kept| <= i < |name| ==> name[i] == '.' || name[i] == ' ')
    && (kept != "" ==> kept[|kept| - 1] != '.' && kept[|kept| - 1] != ' ')
  }

  lemma {:induction false} TrimmedIsKept(name: string, s: string)
    requires |s| <= |name| && s == Masked(name)[..|s|]
    requires forall i :: |s| <= i < |name| ==> name[i] == '.' || name[i] == ' '
    ensures IsKept(name, TrimRight(s))
    decreases |s|
  {
    if s != "" && (s[|s| - 1] == '.' || s[|s| - 1] == ' ') {
      assert name[|s| - 1] == s[|s| - 1];
      TrimmedIsKept(name, s[..|s| - 1]);
    } else {
      assert TrimRight(s) == s;
      assert forall i :: 0 <= i < |s| ==> s[i] == Masked(name)[i];
    }
  }

  /** What becomes of a name: the characters kept of it, with '_' in front where they would name a
      device, and "download" where nothing is kept. */
  lemma {:induction false} SafeFileNameKeeps(name: string)
    ensures exists kept :: IsKept(name, kept)
              && SafeFileName(name) == if kept == "" then "download" else if Device(kept) then "_" + kept else kept
  {
    assert Masked(name)[..|name|] == Masked(name);
    TrimmedIsKept(name, Masked(name));
    hide Device, Masked, Unsafe;
    var kept := TrimRight(Masked(name));
    assert kept != ".";
    assert IsKept(name, kept);
  }

  lemma {:induction false} FixedWhenSafe(name: string)
    requires IsSafe(name)
    ensures SafeFileName(name) == name
  {
    MaskedIsClean(name);
    assert name != ".";
  }

  /** A name is left alone exactly when it is safe already, so making names safe is idempotent. */
  lemma {:induction false} SafeFileNameFixes(name: string)
    ensures SafeFileName(name) == name <==> IsSafe(name)
    ensures SafeFileName(SafeFileName(name)) == SafeFileName(name)
  {
    hide Device;
    SafeFileNameIsSafe(name);
    FixedWhenSafe(SafeFileName(name));
    if IsSafe(name) { FixedWhenSafe(name); }
  }

  lemma {:induction false} SafeHasNoSlash(name: string)
    requires IsSafe(name)
    ensures NoSlash(name) && name != "." && name != ".."
  {
    forall i | 0 <= i < |name|
      ensures name[i] != '/'
    {
      assert !Unsafe(name[i]) && '/' in UNSAFE by { assert UNSAFE[4] == '/'; }
    }
  }

  // ---- Byte order of paths ----

  predicate Before(a: string, b: string) {
    if b == "" then false
    else if a == "" then true
    else if a[0] != b[0] then a[0] < b[0]
    else Before(a[1..], b[1..])
  }

  lemma {:induction false} BeforeIsAsymmetric(a: string, b: string)
    requires Before(a, b)
    ensures !Before(b, a)
  {
    if a != "" && a[0] == b[0] {
      BeforeIsAsymmetric(a[1..], b[1..]);
    }
  }

  lemma {:induction false} PrefixIsBefore(a: string, rest: string)
    requires rest != ""
    ensures Before(a, a + rest)
  {
    if a != "" {
      PrefixIsBefore(a[1..], rest);
      assert (a + rest)[1..] == a[1..] + rest;
    }
  }

  // What a longer path adds behind one of its ancestors.
  function Below(parts: seq<string>, n: nat): (rest: string)
    requires 0 < n < |parts|
    ensures rest != ""
  {
    if n == 1 then "/" + Join(parts[1..]) else Below(parts[1..], n - 1)
  }

  lemma {:induction false} JoinGrows(parts: seq<string>, n: nat)
    requires 0 < n < |parts|
    ensures Join(parts) == Join(parts[..n]) + Below(parts, n)
  {
    if n > 1 {
      JoinGrows(parts[1..], n - 1);
      assert parts[1..][..n - 1] == parts[..n][1..];
      assert parts[..n][0] == parts[0];
    }
  }

  /** A directory's path comes before the paths below it. */
  lemma {:induction false} AncestorIsBefore(parts: seq<string>, n: nat)
    requires 0 < n < |parts|
    ensures Before(Join(parts[..n]), Join(parts))
  {
    JoinGrows(parts, n);
    PrefixIsBefore(Join(parts[..n]), Below(parts, n));
  }
}
