/** The manifest of an FTP directory: built in listing order, validated again in sorted order. */
module FtpManifest {
  import opened Options
  import opened Text
  import opened FtpNames
  import opened Trees

  // Which local paths are taken so far, and whether as directories.
  type Seen = map<Key, bool>

  const OWNER_MARKER := ".gd3_ftp_owner"

  datatype Entry = Entry(local: seq<string>, directory: bool)

  function FoldAll(parts: seq<string>): (r: Key)
    ensures |r| == |parts|
  {
    seq(|parts|, i requires 0 <= i < |parts| => Lower(parts[i]))
  }

  function KeyOf(e: Entry): Key {
    FoldAll(e.local)
  }

  function SafeAll(parts: seq<string>): (r: seq<string>)
    ensures |r| == |parts|
  {
    seq(|parts|, i requires 0 <= i < |parts| => SafeFileName(parts[i]))
  }

  predicate Reserved(local: seq<string>) {
    local != [] && Lower(local[0]) == Lower(OWNER_MARKER)
  }

  // ---- The program compares joined, lower-cased strings ----

  lemma {:induction false} LowerJoinOne(a: string, rest: string)
    ensures Lower(a + "/" + rest) == Lower(a) + "/" + Lower(rest)
  {
  }

  lemma {:induction false} LowerJoin(parts: seq<string>)
    ensures Lower(Join(parts)) == Join(FoldAll(parts))
  {
    if |parts| > 1 {
      LowerJoin(parts[1..]);
      LowerJoinOne(parts[0], Join(parts[1..]));
      assert FoldAll(parts)[1..] == FoldAll(parts[1..]);
    }
  }

  lemma {:induction false} LowerKeepsSlashes(s: string)
    requires NoSlash(s)
    ensures NoSlash(Lower(s))
  {
  }

  lemma {:induction false} FoldedNoSlash(a: seq<string>)
    requires forall p :: p in a ==> NoSlash(p)
    ensures forall p :: p in FoldAll(a) ==> NoSlash(p)
  {
    forall p | p in FoldAll(a)
      ensures NoSlash(p)
    {
      var i :| 0 <= i < |a| && FoldAll(a)[i] == p;
      assert a[i] in a;
      LowerKeepsSlashes(a[i]);
    }
  }

  /** Two component lists have the same lower-cased joined path exactly when their folded components
      agree, so folded component lists can stand for the program's string keys. */
  lemma {:induction false} KeysAreFaithful(a: seq<string>, b: seq<string>)
    requires a != [] && b != []
    requires (forall p :: p in a ==> NoSlash(p)) && (forall p :: p in b ==> NoSlash(p))
    ensures Lower(Join(a)) == Lower(Join(b)) <==> FoldAll(a) == FoldAll(b)
  {
    LowerJoin(a);
    LowerJoin(b);
    FoldedNoSlash(a);
    FoldedNoSlash(b);
    SplitJoin(FoldAll(a));
    SplitJoin(FoldAll(b));
  }

  // ---- Taking a path ----

  function PlaceFrom(seen: Seen, key: Key, directory: bool, i: nat): Option<Seen>
    requires i <= |key|
    decreases |key| - i
  {
    if i == |key| then Some(seen)
    else
      var prefix := key[..i + 1];
      var isDirectory := i < |key| - 1 || directory;
      if prefix in seen && seen[prefix] != isDirectory then None
      else if prefix in seen && i == |key| - 1 then None
      else PlaceFrom(seen[prefix := isDirectory], key, directory, i + 1)
  }

  // safeRelativePath on a component list that is safe already.
  function Take(seen: Seen, e: Entry): Option<Seen> {
    if e.local == [] || Reserved(e.local) then None else PlaceFrom(seen, KeyOf(e), e.directory, 0)
  }

  function TakeAll(seen: Seen, es: seq<Entry>): Option<Seen>
    decreases es
  {
    if es == [] then Some(seen)
    else
      match Take(seen, es[0])
      case None => None
      case Some(next) => TakeAll(next, es[1..])
  }

  // a may be followed by b: b is neither a again nor one of its ancestors, and if a is an
  // ancestor of b then a is a directory.
  ghost predicate Compatible(a: Entry, b: Entry) {
    && !(KeyOf(b) <= KeyOf(a))
    && (KeyOf(a) < KeyOf(b) ==> a.directory)
  }

  ghost predicate Claims(e: Entry, k: Key) {
    k != [] && k <= KeyOf(e)
  }

  // The map after a list of accepted entries: their paths and all ancestors, files marked false.
  ghost predicate SeenIs(seen: Seen, es: seq<Entry>) {
    && (forall k :: k in seen <==> exists i :: 0 <= i < |es| && Claims(es[i], k))
    && (forall i, k :: 0 <= i < |es| && Claims(es[i], k) ==> k in seen && (seen[k] <==> (k != KeyOf(es[i]) || es[i].directory)))
  }

  // What the loop over one path's prefixes does, all at once.
  ghost predicate Fits(seen: Seen, key: Key, i: nat) {
    && (forall n :: i < n < |key| && key[..n] in seen ==> seen[key[..n]])
    && (i < |key| ==> key !in seen)
  }

  ghost predicate Placed(seen: Seen, key: Key, directory: bool, i: nat, after: Seen) {
    && (forall k :: k in after <==> k in seen || (k <= key && |k| > i))
    && (forall k :: k in seen && !(k <= key && |k| > i) ==> after[k] == seen[k])
    && (forall k :: k <= key && |k| > i ==> k in after && after[k] == (k != key || directory))
  }

  lemma {:induction false} FitsStep(seen: Seen, key: Key, directory: bool, i: nat)
    requires i < |key| && !(key[..i + 1] in seen && (seen[key[..i + 1]] != (i < |key| - 1 || directory) || i == |key| - 1))
    ensures Fits(seen[key[..i + 1] := i < |key| - 1 || directory], key, i + 1) <==> Fits(seen, key, i)
  {
    var prefix := key[..i + 1];
    assert |prefix| == i + 1;
    if i == |key| - 1 { assert prefix == key; }
    forall n | i + 1 < n <= |key|
      ensures key[..n] != prefix
    {
      assert |key[..n]| == n;
    }
    assert key[..|key|] == key;
  }

  lemma {:induction false} PlacedStep(seen: Seen, key: Key, directory: bool, i: nat, after: Seen)
    requires i < |key| && Placed(seen[key[..i + 1] := i < |key| - 1 || directory], key, directory, i + 1, after)
    ensures Placed(seen, key, directory, i, after)
  {
    var prefix := key[..i + 1];
    forall k | k <= key && |k| > i && !(|k| > i + 1)
      ensures k == prefix
    {
    }
    assert prefix <= key && |prefix| == i + 1;
    assert (i == |key| - 1) <==> prefix == key;
  }

  lemma {:induction false} PlaceIsWhole(seen: Seen, key: Key, directory: bool, i: nat)
    requires i <= |key|
    ensures PlaceFrom(seen, key, directory, i).Some? <==> Fits(seen, key, i)
    ensures PlaceFrom(seen, key, directory, i).Some? ==> Placed(seen, key, directory, i, PlaceFrom(seen, key, directory, i).value)
    decreases |key| - i
  {
    if i < |key| {
      var prefix := key[..i + 1];
      var isDirectory := i < |key| - 1 || directory;
      var next := seen[prefix := isDirectory];
      if i == |key| - 1 { assert prefix == key; }
      PlaceIsWhole(next, key, directory, i + 1);
      if !(prefix in seen && (seen[prefix] != isDirectory || i == |key| - 1)) {
        FitsStep(seen, key, directory, i);
        var r := PlaceFrom(next, key, directory, i + 1);
        if r.Some? { PlacedStep(seen, key, directory, i, r.value); }
      } else if i < |key| - 1 {
        assert !seen[key[..i + 1]];
      }
    }
  }

  // The program never sees an empty path, and refuses its own marker file's name.
  ghost predicate Usable(es: seq<Entry>) {
    forall i :: 0 <= i < |es| ==> es[i].local != [] && !Reserved(es[i].local)
  }

  lemma {:induction false} FitsCompatible(seen: Seen, es: seq<Entry>, e: Entry, i: nat)
    requires SeenIs(seen, es) && Usable(es) && e.local != [] && Fits(seen, KeyOf(e), 0) && i < |es|
    ensures Compatible(es[i], e)
  {
    var key, ki := KeyOf(e), KeyOf(es[i]);
    if key <= ki {
      assert Claims(es[i], key);
    }
    if ki < key {
      assert key[..|ki|] == ki && Claims(es[i], ki);
    }
  }

  lemma {:induction false} FitsFails(seen: Seen, es: seq<Entry>, e: Entry)
    requires SeenIs(seen, es) && !Fits(seen, KeyOf(e), 0)
    ensures exists i :: 0 <= i < |es| && !Compatible(es[i], e)
  {
    var key := KeyOf(e);
    if key in seen && key != [] {
      var i :| 0 <= i < |es| && Claims(es[i], key);
      assert !Compatible(es[i], e);
    } else {
      var n :| 0 < n < |key| && key[..n] in seen && !seen[key[..n]];
      var i :| 0 <= i < |es| && Claims(es[i], key[..n]);
      assert key[..n] == KeyOf(es[i]) && !es[i].directory;
      assert key[..n] < key;
      assert !Compatible(es[i], e);
    }
  }

  lemma {:induction false} GrownLast(seen: Seen, e: Entry, after: Seen, k: Key)
    requires Placed(seen, KeyOf(e), e.directory, 0, after) && Claims(e, k)
    ensures k in after && (after[k] <==> (k != KeyOf(e) || e.directory))
  {
    hide KeyOf;
  }

  lemma {:induction false} GrownKey(seen: Seen, es: seq<Entry>, e: Entry, after: Seen, k: Key)
    requires SeenIs(seen, es) && Placed(seen, KeyOf(e), e.directory, 0, after)
    ensures var all := es + [e]; k in after <==> exists i :: 0 <= i < |all| && Claims(all[i], k)
  {
    hide KeyOf;
    var all := es + [e];
    if k in seen {
      var i :| 0 <= i < |es| && Claims(es[i], k);
      assert Claims(all[i], k);
    } else if k <= KeyOf(e) && |k| > 0 {
      assert Claims(all[|es|], k);
    }
    forall i | 0 <= i < |all| && Claims(all[i], k)
      ensures k in seen || (k <= KeyOf(e) && |k| > 0)
    {
      assert i < |es| ==> all[i] == es[i];
    }
  }

  lemma {:induction false} GrownValue(seen: Seen, es: seq<Entry>, e: Entry, after: Seen, i: nat, k: Key)
    requires SeenIs(seen, es) && Placed(seen, KeyOf(e), e.directory, 0, after)
    requires i < |es| && Claims(es[i], k) && Compatible(es[i], e)
    ensures k in after && (after[k] <==> (k != KeyOf(es[i]) || es[i].directory))
  {
    hide KeyOf;
    var key, ki := KeyOf(e), KeyOf(es[i]);
    if k <= key {
      assert k == ki ==> ki < key || ki == key;
    }
  }

  lemma {:induction false} TakeGrows(seen: Seen, es: seq<Entry>, e: Entry, after: Seen)
    requires SeenIs(seen, es) && Placed(seen, KeyOf(e), e.directory, 0, after)
    requires forall i :: 0 <= i < |es| ==> Compatible(es[i], e)
    ensures SeenIs(after, es + [e])
  {
    hide KeyOf, Compatible, Placed, Claims;
    var all := es + [e];
    forall k
      ensures k in after <==> exists i :: 0 <= i < |all| && Claims(all[i], k)
    {
      GrownKey(seen, es, e, after, k);
    }
    forall i, k | 0 <= i < |all| && Claims(all[i], k)
      ensures k in after && (after[k] <==> (k != KeyOf(all[i]) || all[i].directory))
    {
      if i < |es| {
        GrownValue(seen, es, e, after, i, k);
      } else {
        GrownLast(seen, e, after, k);
      }
    }
  }

  // Taking one more entry succeeds exactly when it is compatible with all before it.
  lemma {:induction false} TakeOne(seen: Seen, es: seq<Entry>, e: Entry)
    requires SeenIs(seen, es) && Usable(es) && e.local != [] && !Reserved(e.local)
    ensures Take(seen, e).Some? <==> forall i :: 0 <= i < |es| ==> Compatible(es[i], e)
    ensures Take(seen, e).Some? ==> SeenIs(Take(seen, e).value, es + [e])
  {
    hide SeenIs, Fits, Placed, Compatible;
    var key := KeyOf(e);
    PlaceIsWhole(seen, key, e.directory, 0);
    if Fits(seen, key, 0) {
      forall i | 0 <= i < |es|
        ensures Compatible(es[i], e)
      {
        FitsCompatible(seen, es, e, i);
      }
      TakeGrows(seen, es, e, Take(seen, e).value);
    } else {
      FitsFails(seen, es, e);
    }
  }

  ghost predicate PairwiseCompatible(es: seq<Entry>) {
    forall i, j :: 0 <= i < j < |es| ==> Compatible(es[i], es[j])
  }

  ghost predicate AllCompatible(done: seq<Entry>, es: seq<Entry>) {
    forall i, j :: 0 <= i < |done| && 0 <= j < |es| ==> Compatible(done[i], es[j])
  }

  lemma {:induction false} TakeRefuses(seen: Seen, e: Entry)
    requires e.local == [] || Reserved(e.local)
    ensures Take(seen, e) == None
  {
  }

  lemma {:induction false} TailConditions(done: seq<Entry>, es: seq<Entry>)
    requires es != [] && es[0].local != [] && !Reserved(es[0].local)
    requires forall i :: 0 <= i < |done| ==> Compatible(done[i], es[0])
    ensures Usable(es) && AllCompatible(done, es) && PairwiseCompatible(es)
            <==> Usable(es[1..]) && AllCompatible(done + [es[0]], es[1..]) && PairwiseCompatible(es[1..])
  {
    hide Compatible, Reserved;
    var more := done + [es[0]];
    if Usable(es) && AllCompatible(done, es) && PairwiseCompatible(es) {
      forall i, j | 0 <= i < |more| && 0 <= j < |es[1..]|
        ensures Compatible(more[i], es[1..][j])
      {
        assert es[1..][j] == es[j + 1];
      }
    }
    if Usable(es[1..]) && AllCompatible(more, es[1..]) && PairwiseCompatible(es[1..]) {
      forall i, j | 0 <= i < |done| && 0 <= j < |es|
        ensures Compatible(done[i], es[j])
      {
        assert j > 0 ==> es[j] == es[1..][j - 1] && more[i] == done[i];
      }
      forall i, j | 0 <= i < j < |es|
        ensures Compatible(es[i], es[j])
      {
        assert es[j] == es[1..][j - 1];
        assert i == 0 ==> more[|done|] == es[0];
        assert i > 0 ==> es[i] == es[1..][i - 1];
      }
    }
  }

  lemma {:induction false} TakeAllFrom(seen: Seen, done: seq<Entry>, es: seq<Entry>)
    requires SeenIs(seen, done) && Usable(done)
    ensures TakeAll(seen, es).Some? <==> Usable(es) && AllCompatible(done, es) && PairwiseCompatible(es)
    decreases es
  {
    hide SeenIs, Take, Compatible, Reserved;
    if es != [] {
      if es[0].local == [] || Reserved(es[0].local) {
        TakeRefuses(seen, es[0]);
      } else {
        TakeOne(seen, done, es[0]);
        if Take(seen, es[0]).Some? {
          TakeAllFrom(Take(seen, es[0]).value, done + [es[0]], es[1..]);
          TailConditions(done, es);
        }
      }
    }
  }

  /** A list is accepted from an empty map exactly when its paths are usable and each is compatible
      with all that follow it. */
  lemma {:induction false} AcceptedIff(es: seq<Entry>)
    ensures TakeAll(map[], es).Some? <==> Usable(es) && PairwiseCompatible(es)
  {
    hide Compatible;
    TakeAllFrom(map[], [], es);
  }

  // ---- The listing ----

  // A remote entry below the root, one string a path component.
  datatype Remote = Remote(parts: seq<string>, directory: bool)

  function Localize(r: Remote): Entry {
    Entry(SafeAll(r.parts), r.directory)
  }

  function LocalizeAll(rs: seq<Remote>): (es: seq<Entry>)
    ensures |es| == |rs|
  {
    seq(|rs|, i requires 0 <= i < |rs| => Localize(rs[i]))
  }

  // The walker lists every directory before what is in it.
  ghost predicate ParentsFirst(rs: seq<Remote>) {
    forall j :: 0 <= j < |rs| && |rs[j].parts| > 1 ==>
      exists i :: 0 <= i < j && rs[i].directory && rs[i].parts == rs[j].parts[..|rs[j].parts| - 1]
  }

  lemma {:induction false} AncestorListed(rs: seq<Remote>, j: nat, n: nat) returns (i: nat)
    requires ParentsFirst(rs) && j < |rs| && 0 < n < |rs[j].parts|
    ensures i < |rs| && rs[i].directory && rs[i].parts == rs[j].parts[..n]
    decreases |rs[j].parts|
  {
    var k :| 0 <= k < j && rs[k].directory && rs[k].parts == rs[j].parts[..|rs[j].parts| - 1];
    if n == |rs[j].parts| - 1 {
      i := k;
    } else {
      i := AncestorListed(rs, k, n);
      assert rs[j].parts[..|rs[j].parts| - 1][..n] == rs[j].parts[..n];
    }
  }

  // Two different places of an accepted list: different paths, and only directories have anything below.
  ghost predicate Separate(a: Entry, b: Entry) {
    KeyOf(a) != KeyOf(b) && (KeyOf(a) < KeyOf(b) ==> a.directory) && (KeyOf(b) < KeyOf(a) ==> b.directory)
  }

  /** An accepted listing: local paths differ ignoring case, and no file is an ancestor of another entry. */
  lemma {:induction false} ListingIsSeparate(rs: seq<Remote>, i: nat, j: nat)
    requires TakeAll(map[], LocalizeAll(rs)).Some? && i < |rs| && j < |rs| && i != j
    ensures Separate(Localize(rs[i]), Localize(rs[j]))
  {
    hide Take, KeyOf, SafeAll;
    AcceptedIff(LocalizeAll(rs));
    var es := LocalizeAll(rs);
    assert es[i] == Localize(rs[i]) && es[j] == Localize(rs[j]);
    if i < j {
      assert Compatible(es[i], es[j]);
    } else {
      assert Compatible(es[j], es[i]);
    }
  }

  lemma {:induction false} SafePrefix(parts: seq<string>, n: nat)
    requires n <= |parts|
    ensures SafeAll(parts[..n]) == SafeAll(parts)[..n]
    ensures FoldAll(SafeAll(parts[..n])) == FoldAll(SafeAll(parts))[..n]
  {
  }

  // An ancestor by folded path is an ancestor by its own spelling, and so sorts first.
  lemma {:induction false} AncestorSortsFirst(rs: seq<Remote>, a: nat, b: nat)
    requires TakeAll(map[], LocalizeAll(rs)).Some? && ParentsFirst(rs) && a < |rs| && b < |rs|
    requires KeyOf(Localize(rs[b])) < KeyOf(Localize(rs[a])) && rs[b].parts != []
    ensures Before(Join(Localize(rs[b]).local), Join(Localize(rs[a]).local))
  {
    var n := |rs[b].parts|;
    var i := AncestorListed(rs, a, n);
    SafePrefix(rs[a].parts, n);
    assert KeyOf(Localize(rs[i])) == KeyOf(Localize(rs[b]));
    if i != b {
      ListingIsSeparate(rs, i, b);
    }
    AncestorIsBefore(SafeAll(rs[a].parts), n);
  }

  // ---- The second pass ----

  // One manifest item as the worker re-reads it: split, made safe, taken, and compared.
  function Revalidate(seen: Seen, relative: string, directory: bool): Option<Seen> {
    var local := SafeAll(Split(relative));
    match Take(seen, Entry(local, directory))
    case None => None
    case Some(next) => if Join(local) == relative then Some(next) else None
  }

  function RevalidateAll(seen: Seen, ms: seq<(string, bool)>): Option<Seen>
    decreases ms
  {
    if ms == [] then Some(seen)
    else
      match Revalidate(seen, ms[0].0, ms[0].1)
      case None => None
      case Some(next) => RevalidateAll(next, ms[1..])
  }

  function Saved(es: seq<Entry>): (ms: seq<(string, bool)>)
    ensures |ms| == |es|
  {
    seq(|es|, i requires 0 <= i < |es| => (Join(es[i].local), es[i].directory))
  }

  ghost predicate AllSafe(e: Entry) {
    e.local != [] && forall p :: p in e.local ==> IsSafe(p)
  }

  lemma {:induction false} RevalidateOne(seen: Seen, e: Entry)
    requires AllSafe(e)
    ensures Revalidate(seen, Join(e.local), e.directory) == Take(seen, e)
  {
    hide Take, IsSafe, NoSlash;
    forall p | p in e.local
      ensures NoSlash(p)
    {
      SafeHasNoSlash(p);
    }
    SplitJoin(e.local);
    forall i | 0 <= i < |e.local|
      ensures SafeFileName(e.local[i]) == e.local[i]
    {
      SafeFileNameFixes(e.local[i]);
    }
    assert SafeAll(e.local) == e.local;
  }

  lemma {:induction false} RevalidateIsTake(seen: Seen, es: seq<Entry>)
    requires forall i :: 0 <= i < |es| ==> AllSafe(es[i])
    ensures RevalidateAll(seen, Saved(es)) == TakeAll(seen, es)
    decreases es
  {
    hide Take, Revalidate, AllSafe;
    if es != [] {
      RevalidateOne(seen, es[0]);
      assert Saved(es)[1..] == Saved(es[1..]);
      if Take(seen, es[0]).Some? {
        RevalidateIsTake(Take(seen, es[0]).value, es[1..]);
      }
    }
  }

  // A path whose components are all safe names.
  ghost predicate Clean(path: string) {
    forall p :: p in Split(path) ==> IsSafe(p)
  }

  function EntriesOf(ms: seq<(string, bool)>): (es: seq<Entry>)
    ensures |es| == |ms|
  {
    seq(|ms|, i requires 0 <= i < |ms| => Entry(Split(ms[i].0), ms[i].1))
  }

  lemma {:induction false} AllFixed(parts: seq<string>)
    ensures SafeAll(parts) == parts <==> forall p :: p in parts ==> IsSafe(p)
    ensures forall p :: p in SafeAll(parts) ==> NoSlash(p)
  {
    hide IsSafe, NoSlash;
    forall i | 0 <= i < |parts|
      ensures SafeFileName(parts[i]) == parts[i] <==> IsSafe(parts[i])
      ensures NoSlash(SafeAll(parts)[i])
    {
      SafeFileNameFixes(parts[i]);
      SafeFileNameIsSafe(parts[i]);
      SafeHasNoSlash(SafeFileName(parts[i]));
    }
    if SafeAll(parts) == parts {
      forall p | p in parts ensures IsSafe(p) {
        var i :| 0 <= i < |parts| && parts[i] == p;
        assert SafeAll(parts)[i] == SafeFileName(parts[i]);
      }
    } else {
      var i :| 0 <= i < |parts| && SafeAll(parts)[i] != parts[i];
      assert parts[i] in parts;
    }
  }

  lemma {:induction false} RevalidateWhole(seen: Seen, relative: string, directory: bool)
    ensures Revalidate(seen, relative, directory)
            == if Clean(relative) then Take(seen, Entry(Split(relative), directory)) else None
  {
    hide Take, IsSafe, NoSlash, Split, Join;
    var parts := Split(relative);
    AllFixed(parts);
    JoinSplit(relative);
    if Join(SafeAll(parts)) == relative {
      SplitJoin(SafeAll(parts));
    }
  }

  lemma {:induction false} RevalidateAllIs(seen: Seen, ms: seq<(string, bool)>)
    ensures (forall i :: 0 <= i < |ms| ==> Clean(ms[i].0)) ==> RevalidateAll(seen, ms) == TakeAll(seen, EntriesOf(ms))
    ensures RevalidateAll(seen, ms).Some? ==> forall i :: 0 <= i < |ms| ==> Clean(ms[i].0)
    decreases ms
  {
    hide Take, Revalidate, Clean;
    if ms != [] {
      RevalidateWhole(seen, ms[0].0, ms[0].1);
      assert EntriesOf(ms)[1..] == EntriesOf(ms[1..]);
      assert forall i :: 0 <= i < |ms| - 1 ==> ms[1..][i] == ms[i + 1];
      if Revalidate(seen, ms[0].0, ms[0].1).Some? {
        RevalidateAllIs(Revalidate(seen, ms[0].0, ms[0].1).value, ms[1..]);
        if RevalidateAll(seen, ms).Some? {
          forall i | 0 <= i < |ms| ensures Clean(ms[i].0) {
            if i > 0 { assert ms[i] == ms[1..][i - 1]; }
          }
        }
      }
    }
  }

  /** The worker accepts a manifest, whatever its strings, exactly when all components of its paths are
      safe names, none begins with the owner file's name, and each path is compatible with all that
      follow it. */
  lemma {:induction false} ValidatedIff(ms: seq<(string, bool)>)
    ensures RevalidateAll(map[], ms).Some? <==>
            && (forall i :: 0 <= i < |ms| ==> Clean(ms[i].0))
            && Usable(EntriesOf(ms)) && PairwiseCompatible(EntriesOf(ms))
  {
    hide Take, Clean, Usable, PairwiseCompatible;
    RevalidateAllIs(map[], ms);
    AcceptedIff(EntriesOf(ms));
  }

  ghost predicate Sorted(es: seq<Entry>) {
    forall i, j :: 0 <= i < j < |es| ==> !Before(Join(es[j].local), Join(es[i].local))
  }

  lemma {:induction false} OnceInMultiset(es: seq<Entry>, e: Entry)
    requires forall i, j :: 0 <= i < j < |es| ==> es[i] != es[j]
    ensures multiset(es)[e] <= 1
  {
    if es != [] {
      OnceInMultiset(es[1..], e);
      assert es == [es[0]] + es[1..];
    }
  }

  lemma {:induction false} TwiceInMultiset(es: seq<Entry>, i: nat, j: nat)
    requires i < j < |es| && es[i] == es[j]
    ensures multiset(es)[es[i]] >= 2
  {
    assert es == es[..i] + [es[i]] + es[i + 1..j] + [es[j]] + es[j + 1..];
  }

  // A rearrangement of a list without repetitions has none either.
  lemma {:induction false} DistinctAfterSort(es: seq<Entry>, ms: seq<Entry>, i: nat, j: nat)
    requires multiset(ms) == multiset(es) && i < j < |ms|
    requires forall a, b :: 0 <= a < b < |es| ==> es[a] != es[b]
    ensures ms[i] != ms[j] && ms[i] in es && ms[j] in es
  {
    OnceInMultiset(es, ms[i]);
    if ms[i] == ms[j] {
      TwiceInMultiset(ms, i, j);
    }
    assert ms[i] in multiset(ms) && ms[j] in multiset(ms);
  }

  lemma {:induction false} SortedCompatible(rs: seq<Remote>, ms: seq<Entry>, i: nat, j: nat)
    requires TakeAll(map[], LocalizeAll(rs)).Some? && ParentsFirst(rs)
    requires multiset(ms) == multiset(LocalizeAll(rs)) && Sorted(ms) && i < j < |ms|
    ensures Compatible(ms[i], ms[j])
  {
    hide Take, SafeAll, FoldAll, Before, Join;
    var es := LocalizeAll(rs);
    forall a, b | 0 <= a < b < |es|
      ensures es[a] != es[b]
    {
      ListingIsSeparate(rs, a, b);
    }
    DistinctAfterSort(es, ms, i, j);
    var a :| 0 <= a < |es| && es[a] == ms[i];
    var b :| 0 <= b < |es| && es[b] == ms[j];
    ListingIsSeparate(rs, a, b);
    AcceptedIff(es);
    if KeyOf(ms[j]) < KeyOf(ms[i]) {
      AncestorSortsFirst(rs, a, b);
    }
  }

  lemma {:induction false} LocalizedIsSafe(r: Remote)
    requires r.parts != []
    ensures AllSafe(Localize(r))
  {
    hide IsSafe;
    forall p | p in Localize(r).local
      ensures IsSafe(p)
    {
      var i :| 0 <= i < |r.parts| && SafeAll(r.parts)[i] == p;
      SafeFileNameIsSafe(r.parts[i]);
    }
  }

  /** The worker's second pass, over the manifest sorted by path and with an empty map, accepts every
      entry of an accepted listing unchanged. */
  lemma {:induction false} SecondPassAccepts(rs: seq<Remote>, ms: seq<Entry>)
    requires TakeAll(map[], LocalizeAll(rs)).Some? && ParentsFirst(rs)
    requires multiset(ms) == multiset(LocalizeAll(rs)) && Sorted(ms)
    ensures RevalidateAll(map[], Saved(ms)).Some?
  {
    hide Take, SafeAll, Before, Join, Sorted, Compatible;
    var es := LocalizeAll(rs);
    AcceptedIff(es);
    forall i | 0 <= i < |ms|
      ensures ms[i].local != [] && !Reserved(ms[i].local) && AllSafe(ms[i])
    {
      assert ms[i] in multiset(ms);
      var a :| 0 <= a < |es| && es[a] == ms[i];
      LocalizedIsSafe(rs[a]);
    }
    forall i, j | 0 <= i < j < |ms|
      ensures Compatible(ms[i], ms[j])
    {
      SortedCompatible(rs, ms, i, j);
    }
    AcceptedIff(ms);
    RevalidateIsTake(map[], ms);
  }

  // The i-th step of the loop over a path's components.
  lemma {:induction false} NextName(parts: seq<string>, i: nat)
    requires i < |parts|
    ensures SafeAll(parts)[..i] + [SafeFileName(parts[i])] == SafeAll(parts)[..i + 1]
    ensures FoldAll(SafeAll(parts)[..i + 1]) == FoldAll(SafeAll(parts))[..i + 1]
    ensures i == 0 ==> (Reserved(SafeAll(parts)) <==> Lower(SafeFileName(parts[0])) == Lower(OWNER_MARKER))
  {
  }

  // ---- The methods ----

  class PathChecker {
    var seen: Seen

    constructor ()
      ensures seen == map[]
    {
      seen := map[];
    }

    /** safeRelativePath: on success the map has grown by the path and its ancestors. */
    method SafeRelativePath(remote: string, directory: bool) returns (local: Option<string>)
      modifies this
      ensures var e := Entry(SafeAll(Split(remote)), directory);
              match Take(old(seen), e) {
                case Some(next) => local == Some(Join(e.local)) && seen == next
                case None => local == None
              }
    {
      hide Reserved, FoldAll, SafeAll;
      var parts := Split(remote);
      var names: seq<string> := [];
      ghost var all := SafeAll(parts);
      ghost var key := FoldAll(all);
      for i := 0 to |parts|
        invariant names == all[..i]
        invariant i > 0 ==> !Reserved(all)
        invariant PlaceFrom(seen, key, directory, i) == PlaceFrom(old(seen), key, directory, 0)
      {
        names := names + [SafeFileName(parts[i])];
        NextName(parts, i);
        if i == 0 && Lower(names[0]) == Lower(OWNER_MARKER) {
          return None;
        }
        var prefix := FoldAll(names);
        var isDirectory := i < |parts| - 1 || directory;
        if prefix in seen && seen[prefix] != isDirectory {
          return None;
        } else if prefix in seen && i == |parts| - 1 {
          return None;
        }
        seen := seen[prefix := isDirectory];
      }
      assert names == all;
      return Some(Join(names));
    }

    /** The worker's validation loop. */
    method Validate(ms: seq<(string, bool)>) returns (ok: bool)
      requires seen == map[]
      modifies this
      ensures ok <==> RevalidateAll(map[], ms).Some?
      ensures ok <==> (forall i :: 0 <= i < |ms| ==> Clean(ms[i].0))
                      && Usable(EntriesOf(ms)) && PairwiseCompatible(EntriesOf(ms))
    {
      hide Clean, Usable, PairwiseCompatible;
      ValidatedIff(ms);
      for i := 0 to |ms|
        invariant RevalidateAll(seen, ms[i..]) == RevalidateAll(map[], ms)
      {
        assert ms[i..][0] == ms[i] && ms[i..][1..] == ms[i + 1..];
        var normalized := SafeRelativePath(ms[i].0, ms[i].1);
        if normalized.None? || normalized.value != ms[i].0 {
          return false;
        }
      }
      return true;
    }
  }
}
