/**
 Writing to a share in slices: each write may take fewer bytes than offered, or fail.
 Covers the slice loop shared by all SMB jobs, the job that writes a whole file, the job
 that copies a local file, and the plain copy loop of the other back end.
 */
module ChunkedWrite {
  import opened Seqs

  type Byte = b: int | 0 <= b < 256

  datatype Outcome = NoError | CannotOpen | CannotWrite | CannotCopy | NotExist | Timeout

  const MAX_SLICE := 3_000_000
  const COPY_BUFFER := 1024 * 1024
  const PLAIN_BUFFER := 1024

  /** One write: what was offered, and how much of it the server says it took. */
  datatype Try = Try(slice: seq<Byte>, taken: int)

  /** An open remote file: what has reached it so far, and the writes it was asked for. */
  class SambaFile {
    var content: seq<Byte>
    ghost var tries: seq<Try>

    constructor ()
      ensures content == [] && tries == []
    {
      content, tries := [], [];
    }

    /** Takes 1..|slice| bytes, or returns 0 or less and takes nothing. */
    method Write(slice: seq<Byte>) returns (n: int)
      modifies this
      ensures n <= |slice| && (slice == [] ==> n == 0)
      ensures content == old(content) + slice[..if n > 0 then n else 0]
      ensures tries == old(tries) + [Try(slice, n)]
    {
      n := 0;
      if slice != [] {
        n := *;
        if n > |slice| { n := |slice|; }
        if n > 0 { content := content + slice[..n]; }
      }
      tries := tries + [Try(slice, n)];
    }
  }

  /** A local file being read from `pos`. */
  class LocalFile {
    const bytes: seq<Byte>
    var pos: nat
    ghost var results: seq<int>

    ghost predicate Valid()
      reads this
    {
      pos <= |bytes|
    }

    constructor (bytes: seq<Byte>)
      ensures this.bytes == bytes && pos == 0 && results == []
    {
      this.bytes, pos, results := bytes, 0, [];
    }

    /** At most `max` further bytes: none only at the end; nothing moves on an error. */
    method Read(max: nat) returns (n: int, data: seq<Byte>)
      requires Valid() && max > 0
      modifies this
      ensures Valid() && -1 <= n <= max
      ensures n >= 0 ==> pos == old(pos) + n && data == bytes[old(pos)..pos]
      ensures n == 0 <==> old(pos) == |bytes| && n >= 0
      ensures n < 0 ==> pos == old(pos)
      ensures results == old(results) + [n]
    {
      data := [];
      var fails: bool := *;
      if fails {
        results := results + [-1];
        return -1, [];
      }
      var rest := |bytes| - pos;
      if rest == 0 {
        results := results + [0];
        return 0, [];
      }
      n := *;
      if n < 1 { n := 1; }
      if n > max { n := max; }
      if n > rest { n := rest; }
      data := bytes[pos..pos + n];
      pos := pos + n;
      results := results + [n];
    }
  }

  /** What the writes took together. */
  function Taken(tries: seq<Try>): int {
    if tries == [] then 0 else Taken(tries[..|tries| - 1]) + tries[|tries| - 1].taken
  }

  /** Some write took nothing; it can only be the last. */
  predicate LastFailed(tries: seq<Try>) {
    tries != [] && tries[|tries| - 1].taken <= 0
  }

  ghost predicate OnlyLastFails(tries: seq<Try>) {
    forall i :: 0 <= i < |tries| - 1 ==> tries[i].taken > 0
  }

  ghost predicate AllTook(tries: seq<Try>) {
    forall i :: 0 <= i < |tries| ==> tries[i].taken > 0
  }

  lemma TookThen(a: seq<Try>, b: seq<Try>)
    requires AllTook(a) && b != [] && OnlyLastFails(b)
    ensures OnlyLastFails(a + b) && (LastFailed(a + b) <==> LastFailed(b))
    ensures !LastFailed(b) ==> AllTook(a + b)
  {
    var ab := a + b;
    assert forall i :: |a| <= i < |ab| ==> ab[i] == b[i - |a|];
  }

  lemma TookAll(a: seq<Try>)
    requires AllTook(a)
    ensures OnlyLastFails(a) && !LastFailed(a)
  {
  }

  /** Each write is offered what follows the bytes taken before it, up to three million of them. */
  ghost predicate Slices(data: seq<Byte>, tries: seq<Try>) {
    forall i :: 0 <= i < |tries| ==>
      var from := Taken(tries[..i]);
      && 0 <= from <= |data|
      && tries[i].slice == data[from..if |data| - from < 3_000_000 then |data| else from + 3_000_000]
  }

  lemma TakenThen(tries: seq<Try>, t: Try)
    ensures Taken(tries + [t]) == Taken(tries) + t.taken
  {
    assert (tries + [t])[..|tries|] == tries;
  }

  lemma SlicesThen(data: seq<Byte>, tries: seq<Try>, t: Try)
    requires Slices(data, tries) && 0 <= Taken(tries) <= |data|
    requires t.slice == data[Taken(tries)..if |data| - Taken(tries) < 3_000_000 then |data| else Taken(tries) + 3_000_000]
    ensures Slices(data, tries + [t])
  {
    var more := tries + [t];
    forall i | 0 <= i < |more|
      ensures var from := Taken(more[..i]);
        && 0 <= from <= |data|
        && more[i].slice == data[from..if |data| - from < 3_000_000 then |data| else from + 3_000_000]
    {
      assert more[..i] == tries[..i];
      assert i == |tries| ==> tries[..i] == tries;
    }
  }

  /** The writes so far took the first `written` bytes. */
  ghost predicate Going(data: seq<Byte>, tries: seq<Try>, written: int) {
    Taken(tries) == written && 0 <= written <= |data| && Slices(data, tries) && AllTook(tries)
  }

  lemma Offered(data: seq<Byte>, tries: seq<Try>, written: int, t: Try)
    requires Going(data, tries, written) && t.taken <= |t.slice|
    requires t.slice == data[written..if |data| - written < 3_000_000 then |data| else written + 3_000_000]
    ensures var more := tries + [t];
      && Slices(data, more) && OnlyLastFails(more) && (LastFailed(more) <==> t.taken <= 0)
      && (t.taken > 0 ==> Going(data, more, written + t.taken) && !LastFailed(more))
  {
    TakenThen(tries, t);
    SlicesThen(data, tries, t);
    TookThen(tries, [t]);
  }

  /**
   The slice loop. At least one write is made, each offering what is still missing. It
   succeeds, with all of `data` appended, exactly if every write took something; otherwise
   the last one took nothing, and what was taken before is there. No data at all counts as a
   failed write.
   */
  method WriteBatch(smb: SambaFile, data: seq<Byte>) returns (ok: bool, ghost tries: seq<Try>)
    modifies smb
    ensures smb.tries == old(smb.tries) + tries
    ensures tries != [] && OnlyLastFails(tries) && Slices(data, tries)
    ensures ok <==> !LastFailed(tries)
    ensures ok ==> smb.content == old(smb.content) + data && data != []
    ensures !ok ==> exists n :: 0 <= n <= |data| && (n < |data| || data == [])
                               && smb.content == old(smb.content) + data[..n]
  {
    var maxSend := MAX_SLICE;
    var totalSize := |data|;
    var written := 0;
    tries := [];
    ok := true;
    assert data[..0] == [];
    ghost var before, earlier := smb.content, smb.tries;
    while true
      invariant 0 <= written < totalSize || (written == 0 && totalSize == 0)
      invariant maxSend == MAX_SLICE || (maxSend >= totalSize - written && maxSend < MAX_SLICE)
      invariant smb.content == before + data[..written]
      invariant smb.tries == earlier + tries && Going(data, tries, written)
      decreases totalSize - written
    {
      if totalSize - written < maxSend {
        maxSend := totalSize - written;
      }
      var taken;
      taken, tries := WriteSlice(smb, data, written, maxSend, before, earlier, tries);
      if taken <= 0 {
        return false, tries;
      }
      written := written + taken;
      if written >= totalSize {
        break;
      }
    }
    assert data[..written] == data;
  }

  /** One write of the loop, on what is still missing. */
  method WriteSlice(smb: SambaFile, data: seq<Byte>, written: int, maxSend: int,
                    ghost before: seq<Byte>, ghost earlier: seq<Try>, ghost tries: seq<Try>)
      returns (taken: int, ghost more: seq<Try>)
    requires Going(data, tries, written)
    requires maxSend == if |data| - written < MAX_SLICE then |data| - written else MAX_SLICE
    requires smb.content == before + data[..written] && smb.tries == earlier + tries
    modifies smb
    ensures taken <= |data| - written
    ensures smb.tries == earlier + more && more != []
    ensures Slices(data, more) && OnlyLastFails(more) && (LastFailed(more) <==> taken <= 0)
    ensures if taken > 0 then Going(data, more, written + taken) && smb.content == before + data[..written + taken]
            else smb.content == before + data[..written]
  {
    var slice := data[written..written + maxSend];
    assert slice <= data[written..];
    taken := smb.Write(slice);
    ghost var t := Try(slice, taken);
    assert smb.content == before + data[..written + if taken > 0 then taken else 0] by {
      Appended(before, data, written, t);
    }
    Assoc(earlier, tries, [t]);
    Offered(data, tries, written, t);
    more := tries + [t];
  }

  lemma Appended(before: seq<Byte>, data: seq<Byte>, written: int, t: Try)
    requires 0 <= written <= |data| && t.slice <= data[written..] && t.taken <= |t.slice|
    ensures (before + data[..written]) + t.slice[..if t.taken > 0 then t.taken else 0]
      == before + data[..written + if t.taken > 0 then t.taken else 0]
  {
    var n := if t.taken > 0 then t.taken else 0;
    assert data[..written] + t.slice[..n] == data[..written + n];
    Assoc(before, data[..written], t.slice[..n]);
  }

  /** A job with the codes it reported through `finish`. */
  class WriteJob {
    var finished: seq<Outcome>

    constructor ()
      ensures finished == []
    {
      finished := [];
    }

    method Finish(code: Outcome)
      modifies this
      ensures finished == old(finished) + [code]
    {
      finished := finished + [code];
    }

    /**
     Writes `bytes` to a truncated file and reports once. Success means the remote
     file is exactly `bytes`; otherwise it is a prefix, and a proper one if it was opened.
     */
    method Run(connected: bool, canOpen: bool, bytes: seq<Byte>) returns (smb: SambaFile)
      modifies this
      ensures fresh(smb) && |finished| == |old(finished)| + 1 && old(finished) == finished[..|old(finished)|]
      ensures var code := finished[|old(finished)|];
        && (code == NoError || code == Timeout || code == CannotOpen || code == CannotWrite)
        && (code == NoError <==> connected && canOpen && smb.content == bytes)
        && (code == Timeout <==> !connected)
        && (code == CannotOpen <==> connected && !canOpen)
        && (code == CannotWrite ==> |smb.content| < |bytes|)
        && (code == CannotWrite <==> connected && canOpen && LastFailed(smb.tries))
        && (connected && canOpen && bytes != [] ==> smb.tries != [] && OnlyLastFails(smb.tries) && Slices(bytes, smb.tries))
        && smb.content <= bytes
    {
      smb := new SambaFile();
      if !connected {
        Finish(Timeout);
        return;
      }
      if !canOpen {
        Finish(CannotOpen);
        return;
      }
      if |bytes| > 0 {
        var ok, tries := WriteBatch(smb, bytes);
        assert [] + tries == tries && [] + bytes == bytes;
        if !ok {
          ghost var n :| 0 <= n < |bytes| && smb.content == [] + bytes[..n];
          assert smb.content == bytes[..n];
          Finish(CannotWrite);
          return;
        }
      }
      Finish(NoError);
    }
  }

  /** Copies a local file to the share. */
  class CopyJob {
    var finished: seq<Outcome>

    constructor ()
      ensures finished == []
    {
      finished := [];
    }

    method Finish(code: Outcome)
      modifies this
      ensures finished == old(finished) + [code]
    {
      finished := finished + [code];
    }

    /**
     `source` is the local file's contents if it exists; `clock[i]` says whether the
     deadline has passed after block i (and stays passed). Reports once on every path;
     success exactly copies, anything else leaves a prefix.
     */
    method Run(source: seq<Byte>, present: bool, readable: bool, connected: bool, truncate: bool,
               remoteExists: bool, canOpen: bool, clock: nat -> bool)
      returns (smb: SambaFile, ghost counts: seq<int>)
      modifies this
      ensures fresh(smb) && |finished| == |old(finished)| + 1 && old(finished) == finished[..|old(finished)|]
      ensures var code := finished[|old(finished)|];
        && (code == NoError ==> present && readable && connected && canOpen && (truncate || !remoteExists)
                                && smb.content == source)
        && (!present ==> code == NotExist)
        && (present && !readable ==> code == CannotOpen)
        && (present && readable && !connected ==> code == Timeout)
        && (present && readable && connected && !truncate && remoteExists ==> code == CannotCopy)
        && (present && readable && connected && (truncate || !remoteExists) && !canOpen ==> code == CannotOpen)
        && (present && readable && connected && (truncate || !remoteExists) && canOpen ==>
              CopyEnds(code, counts, smb.tries, clock))
        && smb.content <= source
    {
      smb := new SambaFile();
      counts := [];
      if !present {
        Finish(NotExist);
        return;
      }
      if !readable {
        Finish(CannotOpen);
        return;
      }
      if !connected {
        Finish(Timeout);
        return;
      }
      if !truncate && remoteExists {
        Finish(CannotCopy);
        return;
      }
      if !canOpen {
        Finish(CannotOpen);
        return;
      }
      var localFile := new LocalFile(source);
      var code := CopyBlocks(localFile, smb, clock);
      counts := localFile.results;
      Finish(code);
    }
  }

  /**
   Why copying ended: at the end of the file, at the first read or write that failed, or at
   the first block after which the deadline had passed.
   */
  ghost predicate CopyEnds(code: Outcome, counts: seq<int>, tries: seq<Try>, clock: nat -> bool) {
    var n := |counts|;
    && n > 0 && (forall i :: 0 <= i < n - 1 ==> counts[i] > 0 && !clock(i + 1)) && OnlyLastFails(tries)
    && if counts[n - 1] == 0 then code == NoError && !LastFailed(tries)
       else if counts[n - 1] < 0 then code == CannotWrite && !LastFailed(tries)
       else if LastFailed(tries) then code == CannotWrite
       else code == Timeout && clock(n)
  }

  /** Reads block after block and writes each one out, until the end or the deadline. */
  method CopyBlocks(localFile: LocalFile, smb: SambaFile, clock: nat -> bool) returns (code: Outcome)
    requires localFile.Valid() && localFile.pos == 0 && smb.content == []
    requires localFile.results == [] && smb.tries == []
    modifies localFile, smb
    ensures CopyEnds(code, localFile.results, smb.tries, clock)
    ensures code == NoError ==> smb.content == localFile.bytes
    ensures smb.content <= localFile.bytes
  {
    var blocks := 0;
    ghost var counts: seq<int>, tries: seq<Try> := [], [];
    while true
      invariant localFile.Valid() && localFile.results == counts && smb.tries == tries
      invariant smb.content == localFile.bytes[..localFile.pos]
      invariant |counts| == blocks && NotYet(counts, clock) && AllTook(tries)
      decreases |localFile.bytes| - localFile.pos
    {
      TookAll(tries);
      var count, data := localFile.Read(COPY_BUFFER);
      counts := counts + [count];
      if count == 0 {
        assert localFile.bytes[..localFile.pos] == localFile.bytes;
        return NoError;
      }
      if count < 0 {
        return CannotWrite;
      }
      var ok, more := CopyBlock(localFile, smb, data);
      TookThen(tries, more);
      tries := tries + more;
      if !ok {
        return CannotWrite;
      }
      blocks := blocks + 1;
      if clock(blocks) {
        return Timeout;
      }
    }
  }

  /** All reads so far brought something, and the deadline had not passed after any of them. */
  ghost predicate NotYet(counts: seq<int>, clock: nat -> bool) {
    forall i :: 0 <= i < |counts| ==> counts[i] > 0 && !clock(i + 1)
  }

  /** Writes the block just read. */
  method CopyBlock(localFile: LocalFile, smb: SambaFile, data: seq<Byte>) returns (ok: bool, ghost more: seq<Try>)
    requires localFile.Valid() && |data| <= localFile.pos
    requires data == localFile.bytes[localFile.pos - |data|..localFile.pos]
    requires smb.content == localFile.bytes[..localFile.pos - |data|]
    modifies smb
    ensures smb.tries == old(smb.tries) + more && more != [] && OnlyLastFails(more) && (ok <==> !LastFailed(more))
    ensures ok ==> smb.content == localFile.bytes[..localFile.pos]
    ensures smb.content <= localFile.bytes
  {
    ghost var start := localFile.pos - |data|;
    ok, more := WriteBatch(smb, data);
    assert localFile.bytes[..start] + data == localFile.bytes[..localFile.pos];
    if !ok {
      ghost var n :| 0 <= n <= |data| && smb.content == localFile.bytes[..start] + data[..n];
      assert smb.content == localFile.bytes[..start + n];
    }
  }

  // ---------------------------------------------------------- the plain copy loop

  /** The remote bytes after writes that took `takes` bytes, each from the start of `block`. */
  function PlainWrites(block: seq<Byte>, takes: seq<nat>): seq<Byte>
    requires forall k :: 0 <= k < |takes| ==> takes[k] <= |block|
  {
    if takes == [] then [] else block[..takes[0]] + PlainWrites(block, takes[1..])
  }

  function Sum(takes: seq<nat>): nat {
    if takes == [] then 0 else takes[0] + Sum(takes[1..])
  }

  lemma SumAtLeastFirst(takes: seq<nat>)
    ensures takes != [] ==> Sum(takes) >= takes[0]
  {
  }

  /** How a block of `size` bytes may be taken: positive amounts, each within what is offered, ending at `size`. */
  ghost predicate Behaviour(takes: seq<nat>, size: nat) {
    Sum(takes) == size && forall k :: 0 <= k < |takes| ==> 0 < takes[k] <= size
  }

  /** A block whose first byte occurs nowhere else in it. */
  function Marked(size: nat): (block: seq<Byte>)
    ensures |block| == size
  {
    seq(size, i => if i == 0 then 1 else 0)
  }

  /**
   The plain loop always writes from the start of its buffer. It copies every block of a
   size exactly if and only if the whole block is taken by the first write.
   */
  lemma PlainCopyExact(takes: seq<nat>, size: nat)
    requires size > 0 && Behaviour(takes, size)
    ensures (forall block: seq<Byte> :: |block| == size ==> PlainWrites(block, takes) == block)
      <==> takes[0] == size
  {
    assert takes != [];
    var k := takes[0];
    assert Sum(takes) == k + Sum(takes[1..]);
    if k == size {
      SumAtLeastFirst(takes[1..]);
      forall block: seq<Byte> | |block| == size
        ensures PlainWrites(block, takes) == block
      {
        assert PlainWrites(block, takes) == block[..size] + PlainWrites(block, takes[1..]);
      }
    } else {
      assert takes[1..] != [];
      var block := Marked(size);
      assert PlainWrites(block, takes) == block[..k] + (block[..takes[1]] + PlainWrites(block, takes[1..][1..]));
      assert PlainWrites(block, takes)[k] == block[0] != block[k];
    }
  }

  /** Each write is offered the front of the block, as much of it as is still to be written. */
  ghost predicate FrontSlices(block: seq<Byte>, tries: seq<Try>) {
    forall i :: 0 <= i < |tries| ==>
      0 <= Taken(tries[..i]) <= |block| && tries[i].slice == block[..|block| - Taken(tries[..i])]
  }

  lemma FrontThen(block: seq<Byte>, tries: seq<Try>, t: Try)
    requires FrontSlices(block, tries) && 0 <= Taken(tries) <= |block| && t.slice == block[..|block| - Taken(tries)]
    ensures FrontSlices(block, tries + [t])
  {
    var more := tries + [t];
    forall i | 0 <= i < |more|
      ensures 0 <= Taken(more[..i]) <= |block| && more[i].slice == block[..|block| - Taken(more[..i])]
    {
      assert more[..i] == tries[..i];
      assert i == |tries| ==> tries[..i] == tries;
    }
  }

  /** The inner loop of the plain copy, with the amounts it saw taken. */
  method PlainWriteBlock(smb: SambaFile, block: seq<Byte>) returns (ok: bool, ghost takes: seq<nat>, ghost tries: seq<Try>)
    modifies smb
    ensures forall k :: 0 <= k < |takes| ==> 0 < takes[k] <= |block|
    ensures smb.content == old(smb.content) + PlainWrites(block, takes)
    ensures ok ==> Behaviour(takes, |block|)
    ensures smb.tries == old(smb.tries) + tries && OnlyLastFails(tries) && FrontSlices(block, tries)
    ensures ok <==> !LastFailed(tries)
    ensures ok && |takes| == 1 ==> smb.content == old(smb.content) + block
  {
    takes, tries := [], [];
    var written := 0;
    ghost var before, earlier := smb.content, smb.tries;
    while written < |block|
      invariant smb.tries == earlier + tries && GoingPlain(block, tries, written)
      invariant Sum(takes) == written && WithinBlock(takes, block)
      invariant smb.content == before + PlainWrites(block, takes)
      decreases |block| - written
    {
      var taken;
      taken, tries := WriteFront(smb, block, written, earlier, tries);
      if taken <= 0 {
        assert smb.content == before + PlainWrites(block, takes) + [];
        return false, takes, tries;
      }
      PlainWritesAppend(block, takes, taken);
      Assoc(before, PlainWrites(block, takes), block[..taken]);
      takes := takes + [taken];
      written := written + taken;
    }
    ok := true;
    TookAll(tries);
    if |takes| == 1 {
      assert takes == [takes[0]] && takes[1..] == [];
      assert PlainWrites(block, takes) == block;
    }
  }

  ghost predicate WithinBlock(takes: seq<nat>, block: seq<Byte>) {
    forall k :: 0 <= k < |takes| ==> 0 < takes[k] <= |block|
  }

  /** One write of that loop, from the front of the block. */
  method WriteFront(smb: SambaFile, block: seq<Byte>, written: int, ghost earlier: seq<Try>, ghost tries: seq<Try>)
      returns (taken: int, ghost more: seq<Try>)
    requires GoingPlain(block, tries, written) && smb.tries == earlier + tries
    modifies smb
    ensures taken <= |block| - written
    ensures smb.content == old(smb.content) + block[..if taken > 0 then taken else 0]
    ensures smb.tries == earlier + more && FrontSlices(block, more) && OnlyLastFails(more)
    ensures LastFailed(more) <==> taken <= 0
    ensures taken > 0 ==> GoingPlain(block, more, written + taken)
  {
    taken := smb.Write(block[..|block| - written]);
    ghost var t := Try(block[..|block| - written], taken);
    FrontOffered(block, tries, written, t);
    Assoc(earlier, tries, [t]);
    assert t.slice[..if taken > 0 then taken else 0] == block[..if taken > 0 then taken else 0];
    more := tries + [t];
  }

  ghost predicate GoingPlain(block: seq<Byte>, tries: seq<Try>, written: int) {
    Taken(tries) == written && 0 <= written <= |block| && FrontSlices(block, tries) && AllTook(tries)
  }

  lemma FrontOffered(block: seq<Byte>, tries: seq<Try>, written: int, t: Try)
    requires GoingPlain(block, tries, written) && t.taken <= |t.slice| && t.slice == block[..|block| - written]
    ensures var more := tries + [t];
      && FrontSlices(block, more) && OnlyLastFails(more) && (LastFailed(more) <==> t.taken <= 0)
      && (t.taken > 0 ==> GoingPlain(block, more, written + t.taken))
  {
    TakenThen(tries, t);
    FrontThen(block, tries, t);
    TookThen(tries, [t]);
  }

  lemma {:induction false} PlainWritesAppend(block: seq<Byte>, takes: seq<nat>, n: nat)
    requires n <= |block| && forall k :: 0 <= k < |takes| ==> takes[k] <= |block|
    ensures PlainWrites(block, takes + [n]) == PlainWrites(block, takes) + block[..n]
    ensures Sum(takes + [n]) == Sum(takes) + n
  {
    if takes == [] {
      assert takes + [n] == [n] && [n][1..] == [];
    } else {
      PlainWritesAppend(block, takes[1..], n);
      assert (takes + [n])[1..] == takes[1..] + [n];
    }
  }
}
