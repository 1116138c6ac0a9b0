/** Files as byte sequences. Writing past the end fills the hole with zeros. */
module Files {
  type Byte = b: int | 0 <= b < 256

  function Overlay(file: seq<Byte>, at: nat, chunk: seq<Byte>): (r: seq<Byte>)
    ensures |r| >= |file|
    ensures chunk == [] ==> r == file
    ensures chunk != [] ==> |r| == (if at + |chunk| > |file| then at + |chunk| else |file|)
    ensures forall j :: 0 <= j < |r| ==>
              r[j] == if at <= j < at + |chunk| then chunk[j - at] else if j < |file| then file[j] else 0
  {
    if chunk == [] then file
    else
      var n := if at + |chunk| > |file| then at + |chunk| else |file|;
      seq(n, j requires 0 <= j < n =>
        if at <= j < at + |chunk| then chunk[j - at] else if j < |file| then file[j] else 0)
  }

  // Truncate: cut the tail off, or grow with zeros.
  function Resize(file: seq<Byte>, n: nat): (r: seq<Byte>)
    ensures |r| == n
    ensures forall j :: 0 <= j < n ==> r[j] == if j < |file| then file[j] else 0
  {
    seq(n, j requires 0 <= j < n => if j < |file| then file[j] else 0)
  }

  /** Writing two pieces back to back is writing their concatenation. */
  lemma {:induction false} OverlayJoin(file: seq<Byte>, at: nat, a: seq<Byte>, b: seq<Byte>)
    ensures Overlay(Overlay(file, at, a), at + |a|, b) == Overlay(file, at, a + b)
  {
    var once := Overlay(file, at, a + b);
    var twice := Overlay(Overlay(file, at, a), at + |a|, b);
    assert |once| == |twice|;
    assert forall j :: 0 <= j < |once| ==> once[j] == twice[j];
  }
}
