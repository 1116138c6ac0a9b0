/** The names an FTP directory download puts beside a file: its part, its completion marker
    and the temporary file the marker is written to. */
module FtpTree {
  import opened Trees

  function Suffixed(k: Key, suffix: string): (r: Key)
    requires k != []
    ensures r != [] && |r| == |k| && Parent(r) == Parent(k)
  {
    k[..|k| - 1] + [k[|k| - 1] + suffix]
  }

  function PartKey(k: Key): (r: Key)
    requires k != []
    ensures |r| == |k| && Parent(r) == Parent(k)
  {
    Suffixed(k, ".part")
  }

  function MarkerKey(k: Key): (r: Key)
    requires k != []
    ensures |r| == |k| && Parent(r) == Parent(k)
  {
    Suffixed(k, ".complete")
  }

  function TempKey(k: Key): (r: Key)
    requires k != []
    ensures |r| == |k| && Parent(r) == Parent(k)
  {
    Suffixed(k, ".complete.tmp")
  }

  /** The names made from two paths with the same suffix are the same only for the same path. */
  lemma {:induction false} SuffixedInjective(a: Key, b: Key, suffix: string)
    requires a != [] && b != [] && Suffixed(a, suffix) == Suffixed(b, suffix)
    ensures a == b
  {
    var x, y := a[|a| - 1], b[|b| - 1];
    assert Suffixed(a, suffix)[|a| - 1] == x + suffix && Suffixed(b, suffix)[|b| - 1] == y + suffix;
    assert x == (x + suffix)[..|x|] && y == (y + suffix)[..|y|];
    assert a == Parent(a) + [x] && b == Parent(b) + [y];
  }

  /** A path differs from its part, and a marker is never a temporary file. */
  lemma {:induction false} SuffixesDiffer(a: Key, b: Key)
    requires a != [] && b != []
    ensures PartKey(a) != a && MarkerKey(a) != TempKey(b)
  {
    assert PartKey(a)[|a| - 1] == a[|a| - 1] + ".part";
    var m, t := MarkerKey(a)[|a| - 1], TempKey(b)[|b| - 1];
    assert m == a[|a| - 1] + ".complete" && t == b[|b| - 1] + ".complete.tmp";
    assert m[|m| - 1] == 'e' && t[|t| - 1] == 'p';
  }
}
