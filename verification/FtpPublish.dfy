/** What the worker does at one entry of an FTP directory download, on the two trees
    all entries share: the outputs with their ".part" files, and the completion
    markers with their temporary files. Any disk operation may fail or be the last
    thing the process does, and any connection may be refused or cut. */
module FtpPublish {
  import opened Options
  import opened Files
  import opened FtpManifest
  import opened FtpTree
  import opened Trees

  // What happens to one disk operation. A write that fails or dies may have put
  // down a first stretch of its data.
  datatype Fault = Works | Fails(reached: nat) | Dies(reached: nat)

  datatype Outcome = Done | Error | Dead

  // One connection: whether the dial succeeds, whether the server accepts a restart
  // offset (section 5 of RFC 3659) and a plain retrieve, the sizes of the chunks it
  // feeds, and whether it confirms the end of the transfer. The bytes are always
  // those of the remote file from the requested offset on, possibly cut short.
  datatype Attempt = Attempt(dials: bool, restarts: bool, retrieves: bool, chunks: seq<nat>, confirms: bool)

  // What a run of the worker meets at one manifest entry.
  datatype Plan = Plan(attempts: seq<Attempt>, maxRetries: int, faults: seq<Fault>)

  predicate IsSpace(c: char) {
    c == ' ' || c == '\n' || c == '\r' || c == '\t'
  }

  function TrimLeft(s: string): string {
    if s != "" && IsSpace(s[0]) then TrimLeft(s[1..]) else s
  }

  function TrimRight(s: string): string {
    if s != "" && IsSpace(s[|s| - 1]) then TrimRight(s[..|s| - 1]) else s
  }

  function Trim(s: string): string {
    TrimRight(TrimLeft(s))
  }

  // Different contents have different digests, and a digest has no blanks.
  ghost predicate Injective(digest: seq<Byte> -> string) {
    && (forall x: seq<Byte>, y: seq<Byte> {:trigger digest(x), digest(y)} :: digest(x) == digest(y) ==> x == y)
    && (forall x: seq<Byte> {:trigger digest(x)} :: forall i :: 0 <= i < |digest(x)| ==> !IsSpace(digest(x)[i]))
  }

  predicate AllWork(faults: seq<Fault>) {
    forall i :: 0 <= i < |faults| ==> faults[i].Works?
  }

  function Total(chunks: seq<nat>): nat {
    if chunks == [] then 0 else chunks[0] + Total(chunks[1..])
  }

  // An attempt that gets as far as its data stream, and where that starts: a refused restart means
  // from the beginning.
  predicate Opens(a: Attempt, at: nat) {
    a.dials && (a.retrieves || (at > 0 && a.restarts))
  }

  function From(a: Attempt, at: nat): nat {
    if at > 0 && a.restarts then at else 0
  }

  // What a working disk has received when an attempt at a file of this size is over.
  function Received(a: Attempt, at: nat, size: nat): nat {
    if !a.dials then at
    else if !Opens(a, at) then 0
    else if From(a, at) + Total(a.chunks) >= size then size
    else From(a, at) + Total(a.chunks)
  }

  // Some attempt brings the rest and is confirmed, and before it no more fail than the retries
  // allow: a failure after bytes came counts as the first, one without as one more.
  predicate Recovers(attempts: seq<Attempt>, maxRetries: int, failures: nat, at: nat, size: nat)
    decreases attempts
  {
    attempts != [] &&
    var a, now := attempts[0], Received(attempts[0], at, size);
    if Opens(a, at) && a.confirms then now == size
    else
      var failed := if now > at then 1 else failures + 1;
      failed <= maxRetries && Recovers(attempts[1..], maxRetries, failed, now, size)
  }

  // A connection that goes on from where the file stands, brings something and breaks.
  predicate Gains(a: Attempt) {
    a.dials && a.restarts && a.retrieves && !a.confirms && Total(a.chunks) > 0
  }

  predicate Finishes(a: Attempt, size: nat) {
    a.dials && a.retrieves && a.confirms && Total(a.chunks) >= size
  }

  // What the first k attempts bring, one after the other.
  function Gained(attempts: seq<Attempt>, k: nat): nat
    requires k <= |attempts|
  {
    if k == 0 then 0 else Total(attempts[0].chunks) + Gained(attempts[1..], k - 1)
  }

  /** Any number of broken connections is made up for by one retry, as long as each brings something. */
  lemma {:induction false} GainsRecover(attempts: seq<Attempt>, k: nat, maxRetries: int, failures: nat, at: nat, size: nat)
    requires k < |attempts| && maxRetries >= 1 && Finishes(attempts[k], size)
    requires (forall j :: 0 <= j < k ==> Gains(attempts[j])) && at + Gained(attempts, k) <= size
    ensures Recovers(attempts, maxRetries, failures, at, size)
    decreases k
  {
    if k > 0 {
      var rest := attempts[1..];
      assert forall j :: 0 <= j < k - 1 ==> rest[j] == attempts[j + 1];
      assert rest[k - 1] == attempts[k];
      GainsRecover(rest, k - 1, maxRetries, 1, at + Total(attempts[0].chunks), size);
    }
  }

  /** Connections that cannot be dialled are made up for exactly up to maxRetries in a row. */
  lemma {:induction false} DialsRecoverIff(attempts: seq<Attempt>, k: nat, maxRetries: int, failures: nat, at: nat, size: nat)
    requires k < |attempts| && at <= size && Finishes(attempts[k], size) && forall j :: 0 <= j < k ==> !attempts[j].dials
    ensures Recovers(attempts, maxRetries, failures, at, size) <==> k == 0 || failures + k <= maxRetries
    decreases k
  {
    if k > 0 {
      var rest := attempts[1..];
      assert forall j :: 0 <= j < k - 1 ==> rest[j] == attempts[j + 1];
      assert rest[k - 1] == attempts[k];
      DialsRecoverIff(rest, k - 1, maxRetries, failures + 1, at, size);
    }
  }

  /** The marker line, read back and trimmed, is the digest that was written. */
  lemma {:induction false} MarkerReadsBack(d: string)
    requires forall i :: 0 <= i < |d| ==> !IsSpace(d[i])
    ensures Trim(d + "\n") == d
  {
    var line := d + "\n";
    assert line[..|line| - 1] == d;
    if d == "" {
      assert TrimLeft(line) == TrimLeft(line[1..]);
      assert line[1..] == "";
    } else {
      assert line[0] == d[0];
      assert TrimRight(line) == TrimRight(d);
    }
  }

  /** Writing remote bytes at any place inside a prefix of the remote file leaves a
      prefix of the remote file. */
  lemma {:induction false} PrefixGrows(part: seq<Byte>, at: nat, n: nat, content: seq<Byte>)
    requires part <= content && at <= |part| && at + n <= |content|
    ensures Overlay(part, at, content[at..at + n]) <= content
    ensures |Overlay(part, at, content[at..at + n])| >= at + n
  {
    var chunk := content[at..at + n];
    var grown := Overlay(part, at, chunk);
    assert |grown| <= |content|;
    assert forall j :: 0 <= j < |grown| ==> grown[j] == content[j];
  }

  // ---- The worker's state ----

  // One manifest entry. The path is folded: it is what the file system compares.
  datatype Item = Item(key: Key, directory: bool, content: seq<Byte>)

  // The outputs, the markers, and what the coming disk operations will meet.
  datatype World = World(output: Tree<seq<Byte>>, metadata: Tree<string>, faults: seq<Fault>)

  // `n` counts the bytes received.
  datatype Step = Step(o: Outcome, w: World, n: nat)

  datatype Verdict = Verdict(o: Outcome, w: World, matches: bool)

  function Next(w: World): (Fault, World) {
    if w.faults == [] then (Works, w) else (w.faults[0], w.(faults := w.faults[1..]))
  }

  function Try(w: World): (Outcome, World) {
    var (f, w1) := Next(w);
    (match f case Works => Done case Fails(_) => Error case Dies(_) => Dead, w1)
  }

  function PartData(w: World, f: Item): seq<Byte>
    requires f.key != []
  {
    if IsFile(w.output, PartKey(f.key)) then w.output[PartKey(f.key)].data else []
  }

  function SetPart(w: World, f: Item, data: seq<Byte>): World
    requires f.key != []
  {
    w.(output := w.output[PartKey(f.key) := File(data)])
  }

  // ---- The steps of downloadDirectoryFile ----

  predicate Matching(w: World, f: Item, digest: seq<Byte> -> string)
    requires f.key != []
  {
    && IsFile(w.output, f.key) && |w.output[f.key].data| == |f.content|
    && IsFile(w.metadata, MarkerKey(f.key))
    && Trim(w.metadata[MarkerKey(f.key)].data) == digest(w.output[f.key].data)
  }

  // A read that fails counts as "not complete".
  function CompletedFileMatches(w: World, f: Item, digest: seq<Byte> -> string): Verdict
    requires f.key != []
  {
    var (o1, w1) := Try(w);
    if o1 == Dead then Verdict(Dead, w1, false)
    else if o1 == Error || !IsFile(w.output, f.key) || |w.output[f.key].data| != |f.content| then Verdict(Done, w1, false)
    else
      var (o2, w2) := Try(w1);
      if o2 == Dead then Verdict(Dead, w2, false)
      else if o2 == Error || !IsFile(w.metadata, MarkerKey(f.key)) then Verdict(Done, w2, false)
      else
        var (o3, w3) := Try(w2);
        if o3 != Done then Verdict(if o3 == Dead then Dead else Done, w3, false)
        else Verdict(Done, w3, Matching(w, f, digest))
  }

  // The part's size as far as it can be used. A directory counts as empty.
  function Resume(w: World, f: Item): Step
    requires f.key != []
  {
    var (o1, w1) := Try(w);
    if o1 != Done then Step(o1, w1, 0)
    else if |PartData(w1, f)| <= |f.content| then Step(Done, w1, |PartData(w1, f)|)
    else
      var (o2, w2) := Try(w1);
      if o2 != Done then Step(o2, w2, 0)
      else
        var (o3, w3) := Try(SetPart(w2, f, []));
        Step(o3, w3, 0)
  }

  // Open the part for writing and seek.
  function OpenPart(w: World, f: Item, at: nat): Step
    requires f.key != []
  {
    var (o1, w1) := Try(w);
    if o1 != Done then Step(o1, w1, at)
    else if IsDir(w1.output, PartKey(f.key)) then Step(Error, w1, at)
    else
      var (o2, w2) := Try(SetPart(w1, f, PartData(w1, f)));
      Step(o2, w2, at)
  }

  // Open the data stream at `at`, or from the start when a restart is refused.
  function OpenStream(w: World, f: Item, a: Attempt, at: nat): Step
    requires f.key != []
  {
    if !a.dials then Step(Error, w, at)
    else if at > 0 && a.restarts then OpenPart(w, f, at)
    else if at > 0 then
      var (o1, w1) := Try(w);
      if o1 != Done then Step(o1, w1, 0)
      else if !IsFile(w1.output, PartKey(f.key)) then Step(Error, w1, 0)
      else if !a.retrieves then Step(Error, SetPart(w1, f, []), 0)
      else OpenPart(SetPart(w1, f, []), f, 0)
    else if !a.retrieves then Step(Error, w, 0)
    else OpenPart(w, f, 0)
  }

  function ReadSize(f: Item, received: nat, chunk: nat): (n: nat)
    ensures n > 0 ==> received + n <= |f.content|
  {
    if received + chunk <= |f.content| then chunk
    else if received <= |f.content| then |f.content| - received else 0
  }

  // How much of a write of n bytes reaches the file.
  function Reached(f: Fault, n: nat): (r: nat)
    ensures r <= n
  {
    if f.Works? || f.reached > n then n else f.reached
  }

  // Write the next n bytes at their place; a write that fails may have put down some.
  function WriteChunk(w: World, f: Item, received: nat, n: nat): Step
    requires f.key != [] && received + n <= |f.content|
  {
    var (flt, w1) := Next(w);
    var got := Reached(flt, n);
    var w2 := SetPart(w1, f, Overlay(PartData(w1, f), received, f.content[received..received + got]));
    Step(match flt case Works => Done case Fails(_) => Error case Dies(_) => Dead, w2, received + got)
  }

  // The loop over the reads of one stream.
  function Copy(w: World, f: Item, chunks: seq<nat>, received: nat): Step
    requires f.key != []
    decreases chunks
  {
    if chunks == [] then Step(Done, w, received)
    else
      var n := ReadSize(f, received, chunks[0]);
      if n == 0 then Copy(w, f, chunks[1..], received)
      else
        var s := WriteChunk(w, f, received, n);
        if s.o != Done then s else Copy(s.w, f, chunks[1..], s.n)
  }

  function Transfer(w: World, f: Item, a: Attempt, at: nat): Step
    requires f.key != []
  {
    var s := OpenStream(w, f, a, at);
    if s.o != Done then s
    else
      var t := Copy(s.w, f, a.chunks, s.n);
      if t.o != Done then t
      else if !a.confirms then t.(o := Error)
      else
        var (o, w1) := Try(t.w);
        Step(o, w1, t.n)
  }

  // Transfer until one attempt succeeds, the retries are used up or the run ends.
  function Fetch(w: World, f: Item, attempts: seq<Attempt>, maxRetries: int, failures: nat, received: nat): Step
    requires f.key != []
    decreases attempts
  {
    if attempts == [] then Step(Error, w, received)
    else
      var t := Transfer(w, f, attempts[0], received);
      var failed := (if t.n > received then 0 else failures) + 1;
      if t.o != Error || failed > maxRetries then t
      else Fetch(t.w, f, attempts[1..], maxRetries, failed, t.n)
  }

  function RemoveTemp(w: World, f: Item, o: Outcome): Step
    requires f.key != []
  {
    var (cleaned, w1) := Try(w);
    if cleaned == Dead then Step(Dead, w1, 0)
    else if cleaned == Error || !IsFile(w1.metadata, TempKey(f.key)) then Step(o, w1, 0)
    else Step(o, w1.(metadata := w1.metadata - {TempKey(f.key)}), 0)
  }

  // Move the temporary file to where no marker is left.
  function MoveMarker(w: World, f: Item, line: string): Step
    requires f.key != []
  {
    var (o, w1) := Try(w);
    if o == Dead then Step(Dead, w1, 0)
    else if o == Error then RemoveTemp(w1, f, Error)
    else RemoveTemp(w1.(metadata := (w1.metadata - {TempKey(f.key)})[MarkerKey(f.key) := File(line)]), f, Done)
  }

  // From the temporary file on: drop the old marker, move the new one in its place.
  function PlaceMarker(w: World, f: Item, line: string): Step
    requires f.key != []
  {
    var (o, w1) := Try(w);
    if o == Dead then Step(Dead, w1, 0)
    else if o == Error || !Removable(w1.metadata, MarkerKey(f.key)) then RemoveTemp(w1, f, Error)
    else MoveMarker(w1.(metadata := w1.metadata - {MarkerKey(f.key)}), f, line)
  }

  function MarkerDirectory(w: World, f: Item): Step
    requires f.key != []
  {
    var dir := Parent(f.key);
    var (flt, w1) := Next(w);
    if Blocked(w1.metadata, dir) then Step(if flt.Dies? then Dead else Error, w1, 0)
    else
      var w2 := w1.(metadata := MkdirAll(w1.metadata, dir, Reached(flt, |dir|)));
      Step(match flt case Works => Done case Fails(_) => Error case Dies(_) => Dead, w2, 0)
  }

  function WriteTemp(w: World, f: Item, line: string): Step
    requires f.key != []
  {
    var (flt, w1) := Next(w);
    if IsDir(w1.metadata, TempKey(f.key)) then Step(if flt.Dies? then Dead else Error, w1, 0)
    else
      var w2 := w1.(metadata := w1.metadata[TempKey(f.key) := File(line[..Reached(flt, |line|)])]);
      Step(match flt case Works => Done case Fails(_) => Error case Dies(_) => Dead, w2, 0)
  }

  function WriteCompletionMarker(w: World, f: Item, digest: seq<Byte> -> string): Step
    requires f.key != []
  {
    var (o1, w1) := Try(w);
    if o1 != Done then Step(o1, w1, 0)
    else if !IsFile(w1.output, f.key) then Step(Error, w1, 0)
    else
      var line := digest(w1.output[f.key].data) + "\n";
      var m := MarkerDirectory(w1, f);
      if m.o != Done then m
      else
        var t := WriteTemp(m.w, f, line);
        if t.o != Done then t else PlaceMarker(t.w, f, line)
  }

  // Move the part over the output.
  function MovePart(w: World, f: Item): Step
    requires f.key != []
  {
    var (o1, w1) := Try(w);
    if o1 != Done then Step(o1, w1, 0)
    else if !Removable(w1.output, f.key) then Step(Error, w1, 0)
    else
      var w2 := w1.(output := w1.output - {f.key});
      var (o3, w3) := Try(w2);
      if o3 != Done then Step(o3, w3, 0)
      else if !IsFile(w3.output, PartKey(f.key)) then Step(Error, w3, 0)
      else Step(Done, w3.(output := (w3.output - {PartKey(f.key)})[f.key := w3.output[PartKey(f.key)]]), 0)
  }

  function Publish(w: World, f: Item, digest: seq<Byte> -> string): Step
    requires f.key != []
  {
    var m := MovePart(w, f);
    if m.o != Done then m else WriteCompletionMarker(m.w, f, digest)
  }

  // Everything after the skip test has said no.
  function Refetch(w: World, f: Item, p: Plan, digest: seq<Byte> -> string): Step
    requires f.key != []
  {
    var r := Resume(w, f);
    if r.o != Done then r
    else
      var t := Fetch(r.w, f, p.attempts, p.maxRetries, 0, r.n);
      if t.o != Done then t
      else if t.n != |f.content| then t.(o := Error)
      else Publish(t.w, f, digest).(n := t.n)
  }

  function DownloadFile(w: World, f: Item, p: Plan, digest: seq<Byte> -> string): Step
    requires f.key != []
  {
    var v := CompletedFileMatches(w, f, digest);
    if v.o != Done then Step(v.o, v.w, 0)
    else
      var (o, w1) := Try(v.w);
      if o != Done then Step(o, w1, 0)
      else if v.matches then Step(Done, w1, |f.content|)
      else Refetch(w1, f, p, digest)
  }

  // Where the fetching of an entry goes on from: its part, as far as it can be used.
  function Resumed(w: World, f: Item): nat
    requires f.key != []
  {
    if |PartData(w, f)| <= |f.content| then |PartData(w, f)| else 0
  }

  // The visit meets a working disk and connections that recover from where the file stands.
  predicate Undisturbed(w: World, f: Item, p: Plan)
    requires f.key != []
  {
    AllWork(p.faults) && (f.directory || Recovers(p.attempts, p.maxRetries, 0, Resumed(w, f), |f.content|))
  }

  // ---- One manifest entry, and all of them ----

  function DirOf(e: Item): Key
    requires e.key != []
  {
    if e.directory then e.key else Parent(e.key)
  }

  function MakeDirs(w: World, e: Item): Step
    requires e.key != []
  {
    var dir := DirOf(e);
    var (flt, w1) := Next(w);
    if Blocked(w1.output, dir) then Step(if flt.Dies? then Dead else Error, w1, 0)
    else
      var w2 := w1.(output := MkdirAll(w1.output, dir, Reached(flt, |dir|)));
      Step(match flt case Works => Done case Fails(_) => Error case Dies(_) => Dead, w2, 0)
  }

  function VisitEntry(w: World, e: Item, p: Plan, digest: seq<Byte> -> string): Step
    requires e.key != []
  {
    var m := MakeDirs(w.(faults := p.faults), e);
    if m.o != Done || e.directory then m else DownloadFile(m.w, e, p, digest)
  }

  // The worker's loop. A run whose plans end early was cancelled or killed between two entries.
  function RunAll(w: World, items: seq<Item>, plans: seq<Plan>, digest: seq<Byte> -> string): (Outcome, World)
    requires forall i :: 0 <= i < |items| ==> items[i].key != []
    decreases items
  {
    if items == [] then (Done, w)
    else if plans == [] then (Dead, w)
    else
      var v := VisitEntry(w, items[0], plans[0], digest);
      if v.o != Done then (v.o, v.w) else RunAll(v.w, items[1..], plans[1..], digest)
  }
}
