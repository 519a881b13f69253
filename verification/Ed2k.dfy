/** ed2k hashing.  MD4 is any function from bytes to a digest: everything below
    holds whatever it computes.  A hasher is the bytes fed to it so far. */
module Ed2k {
  import opened Wrappers

  type Byte = x: int | 0 <= x < 256 witness 0
  type Digest = seq<Byte>
  type Md4 = seq<Byte> -> Digest

  const BLOCK_SIZE: nat := 9_728_000

  datatype FileHash = FileHash(root: Digest, blocks: seq<Digest>, sizeBytes: nat)

  // ---- The definition: split, hash, hash the hashes.

  /** The real blocks of a file: full ones, then a short one.  An empty file is
      one empty block. */
  function Split(data: seq<Byte>): (blocks: seq<seq<Byte>>)
    ensures |blocks| >= 1
    decreases |data|
  {
    if |data| <= BLOCK_SIZE then [data] else [data[..BLOCK_SIZE]] + Split(data[BLOCK_SIZE..])
  }

  /** The blocks of the eMule/AniDB ("red") root: full ones, then one that is
      short, and empty when the size is a multiple of the block size. */
  function RedSplit(data: seq<Byte>): (blocks: seq<seq<Byte>>)
    ensures |blocks| >= 1
    decreases |data|
  {
    if |data| < BLOCK_SIZE then [data] else [data[..BLOCK_SIZE]] + RedSplit(data[BLOCK_SIZE..])
  }

  function Digests(md4: Md4, blocks: seq<seq<Byte>>): seq<Digest> {
    if blocks == [] then [] else [md4(blocks[0])] + Digests(md4, blocks[1..])
  }

  function Concat<T>(parts: seq<seq<T>>): seq<T> {
    if parts == [] then [] else parts[0] + Concat(parts[1..])
  }

  /** The published definition of a file's red root. */
  function RedRoot(md4: Md4, data: seq<Byte>): Digest {
    var digests := Digests(md4, RedSplit(data));
    if |digests| == 1 then digests[0] else md4(Concat(digests))
  }

  // ---- The program.

  /** What one `read` call gives: bytes (none at the end) or an error. */
  datatype ReadResult = Bytes(bytes: seq<Byte>) | Error

  /** The bytes a reader delivers before its end, or nothing if it fails first. */
  function Delivered(calls: seq<ReadResult>): Option<seq<Byte>> {
    if calls == [] then Some([])
    else if calls[0].Error? then None
    else if calls[0].bytes == [] then Some([])
    else
      match Delivered(calls[1..])
      case None => None
      case Some(rest) => Some(calls[0].bytes + rest)
  }

  /** The blocks of a whole number of blocks. */
  function FullBlocks(data: seq<Byte>): seq<seq<Byte>>
    decreases |data|
  {
    if |data| < BLOCK_SIZE then [] else [data[..BLOCK_SIZE]] + FullBlocks(data[BLOCK_SIZE..])
  }

  /** Appending a full block to a whole number of blocks. */
  lemma {:induction false} FullBlocksAppend(done: seq<Byte>, full: seq<Byte>)
    requires |done| % BLOCK_SIZE == 0 && |full| == BLOCK_SIZE
    ensures FullBlocks(done + full) == FullBlocks(done) + [full]
    decreases |done|
  {
    if done == [] {
      assert done + full == full && full[..BLOCK_SIZE] == full && FullBlocks(full[BLOCK_SIZE..]) == [];
    } else {
      assert |done| >= BLOCK_SIZE;
      assert (done + full)[..BLOCK_SIZE] == done[..BLOCK_SIZE];
      assert (done + full)[BLOCK_SIZE..] == done[BLOCK_SIZE..] + full;
      FullBlocksAppend(done[BLOCK_SIZE..], full);
    }
  }

  /** A file is its full blocks and what is left over. */
  lemma {:induction false} SplitTail(done: seq<Byte>, tail: seq<Byte>)
    requires |done| % BLOCK_SIZE == 0 && |tail| < BLOCK_SIZE
    ensures Split(done + tail) == FullBlocks(done) + (if tail == [] && done != [] then [] else [tail])
    ensures RedSplit(done + tail) == FullBlocks(done) + [tail]
    decreases |done|
  {
    var data := done + tail;
    if done == [] {
      assert data == tail;
    } else {
      assert |done| >= BLOCK_SIZE;
      assert data[..BLOCK_SIZE] == done[..BLOCK_SIZE];
      assert data[BLOCK_SIZE..] == done[BLOCK_SIZE..] + tail;
      SplitTail(done[BLOCK_SIZE..], tail);
      if |data| == BLOCK_SIZE {
        assert data == done && done[..BLOCK_SIZE] == done && done[BLOCK_SIZE..] == [];
      }
    }
  }

  lemma {:induction false} DigestsAppend(md4: Md4, blocks: seq<seq<Byte>>, block: seq<Byte>)
    ensures Digests(md4, blocks + [block]) == Digests(md4, blocks) + [md4(block)]
  {
    if blocks != [] {
      assert (blocks + [block])[1..] == blocks[1..] + [block];
      DigestsAppend(md4, blocks[1..], block);
    }
  }

  lemma {:induction false} ConcatAppend<T>(parts: seq<seq<T>>, part: seq<T>)
    ensures Concat(parts + [part]) == Concat(parts) + part
  {
    if parts != [] {
      assert (parts + [part])[1..] == parts[1..] + [part];
      ConcatAppend(parts[1..], part);
    }
  }

  /** `block_hash`: one block's digest. */
  function BlockHash(md4: Md4, bytes: seq<Byte>): Digest {
    md4(bytes)
  }

  /** What `root_from_blocks` computes. */
  function RootOf(md4: Md4, blocks: seq<Digest>, sizeBytes: nat): Digest {
    if |blocks| == 1 && sizeBytes < BLOCK_SIZE then blocks[0]
    else md4(Concat(blocks) + (if sizeBytes % BLOCK_SIZE == 0 then md4([]) else []))
  }

  method RootFromBlocks(md4: Md4, blocks: seq<Digest>, sizeBytes: nat) returns (root: Digest)
    ensures root == RootOf(md4, blocks, sizeBytes)
  {
    if |blocks| == 1 && sizeBytes < BLOCK_SIZE {
      return blocks[0];
    }
    var hasher: seq<Byte> := [];
    for i := 0 to |blocks|
      invariant hasher == Concat(blocks[..i])
    {
      assert blocks[..i + 1] == blocks[..i] + [blocks[i]];
      ConcatAppend(blocks[..i], blocks[i]);
      hasher := hasher + blocks[i];
    }
    assert blocks[..|blocks|] == blocks && hasher + [] == hasher;
    if sizeBytes % BLOCK_SIZE == 0 {
      hasher := hasher + md4([]);
    }
    root := md4(hasher);
  }

  /** Feeds one read into the open block, closing blocks as they fill: `done`
      is everything in closed blocks, `open` what the hasher holds. */
  method Feed(md4: Md4, chunk: seq<Byte>, blocks: seq<Digest>, open: seq<Byte>, ghost done: seq<Byte>)
    returns (blocks': seq<Digest>, open': seq<Byte>, ghost done': seq<Byte>)
    requires |open| < BLOCK_SIZE && |done| % BLOCK_SIZE == 0 && blocks == Digests(md4, FullBlocks(done))
    ensures |open'| < BLOCK_SIZE && |done'| % BLOCK_SIZE == 0 && blocks' == Digests(md4, FullBlocks(done'))
    ensures done' + open' == done + open + chunk
  {
    blocks', open', done' := blocks, open, done;
    var rest := chunk;
    while rest != []
      invariant |open'| < BLOCK_SIZE && |done'| % BLOCK_SIZE == 0
      invariant blocks' == Digests(md4, FullBlocks(done'))
      invariant done' + open' + rest == done + open + chunk
      decreases |rest|
    {
      var space := BLOCK_SIZE - |open'|;
      var take := if |rest| < space then |rest| else space;
      ghost var was := rest;
      open', rest := open' + rest[..take], rest[take..];
      assert was == was[..take] + rest;
      if |open'| == BLOCK_SIZE {
        FullBlocksAppend(done', open');
        DigestsAppend(md4, FullBlocks(done'), open');
        blocks', done', open' := blocks' + [md4(open')], done' + open', [];
      }
    }
  }

  /** With `sofar` taken, the calls from `next` on deliver the rest. */
  ghost predicate TakenSoFar(calls: seq<ReadResult>, next: nat, sofar: seq<Byte>)
    requires next <= |calls|
  {
    match Delivered(calls[next..])
    case None => Delivered(calls) == None
    case Some(rest) => Delivered(calls) == Some(sofar + rest)
  }

  lemma TakeOne(calls: seq<ReadResult>, next: nat, sofar: seq<Byte>)
    requires next < |calls| && calls[next].Bytes? && calls[next].bytes != []
    requires TakenSoFar(calls, next, sofar)
    ensures TakenSoFar(calls, next + 1, sofar + calls[next].bytes)
  {
    assert calls[next..][1..] == calls[next + 1..];
    var rest := Delivered(calls[next + 1..]);
    if rest.Some? {
      assert sofar + (calls[next].bytes + rest.value) == sofar + calls[next].bytes + rest.value;
    }
  }

  /** Flushes the open block and computes the root.  An empty file gets the
      digest of an empty block. */
  method Finish(md4: Md4, blocks: seq<Digest>, open: seq<Byte>, sizeBytes: nat, ghost done: seq<Byte>)
    returns (hash: FileHash)
    requires |open| < BLOCK_SIZE && |done| % BLOCK_SIZE == 0 && blocks == Digests(md4, FullBlocks(done))
    requires sizeBytes == |done + open|
    ensures hash == FileHash(RedRoot(md4, done + open), Digests(md4, Split(done + open)), sizeBytes)
  {
    SplitTail(done, open);
    DigestsAppend(md4, FullBlocks(done), open);
    FullBlocksEmpty(done);
    DigestsLength(md4, FullBlocks(done));
    assert FullBlocks(done) + [] == FullBlocks(done);
    var all := blocks;
    if |open| > 0 || blocks == [] {
      all := blocks + [md4(open)];
    }
    RootIsRed(md4, done, open);
    var root := RootFromBlocks(md4, all, sizeBytes);
    hash := FileHash(root, all, sizeBytes);
  }

  /** Hashes a stream, however its reader splits it: the digest of every real
      block, the red root, and the size; or an error exactly when the reader
      fails before its end. */
  method HashReader(md4: Md4, calls: seq<ReadResult>) returns (hash: Option<FileHash>)
    ensures hash.None? <==> Delivered(calls).None?
    ensures hash.Some? ==>
              var data := Delivered(calls).value;
              hash.value == FileHash(RedRoot(md4, data), Digests(md4, Split(data)), |data|)
  {
    var blocks, open, sizeBytes := [], [], 0;
    ghost var done: seq<Byte> := [];
    var next := 0;
    assert calls[0..] == calls && forall d: seq<Byte> :: done + open + d == d;
    while true
      invariant next <= |calls|
      invariant |open| < BLOCK_SIZE && |done| % BLOCK_SIZE == 0 && blocks == Digests(md4, FullBlocks(done))
      invariant sizeBytes == |done + open|
      invariant TakenSoFar(calls, next, done + open)
      decreases |calls| - next
    {
      if next == |calls| {
        break;
      }
      if calls[next].Error? {
        return None;
      }
      var chunk := calls[next].bytes;
      if chunk == [] {
        break;
      }
      TakeOne(calls, next, done + open);
      sizeBytes := sizeBytes + |chunk|;
      blocks, open, done := Feed(md4, chunk, blocks, open, done);
      next := next + 1;
    }
    assert done + open + [] == done + open;
    var result := Finish(md4, blocks, open, sizeBytes, done);
    hash := Some(result);
  }

  lemma FullBlocksEmpty(done: seq<Byte>)
    requires |done| % BLOCK_SIZE == 0
    ensures FullBlocks(done) == [] <==> done == []
  {
  }

  /** The program's root is the published one. */
  lemma RootIsRed(md4: Md4, done: seq<Byte>, tail: seq<Byte>)
    requires |done| % BLOCK_SIZE == 0 && |tail| < BLOCK_SIZE
    ensures RootOf(md4, Digests(md4, Split(done + tail)), |done + tail|) == RedRoot(md4, done + tail)
  {
    SplitTail(done, tail);
    FullBlocksEmpty(done);
    DigestsAppend(md4, FullBlocks(done), tail);
    var closed := Digests(md4, FullBlocks(done));
    ConcatAppend(closed, md4(tail));
    if done == [] {
      assert closed + [md4(tail)] == [md4(tail)];
    } else {
      DigestsLength(md4, FullBlocks(done));
      assert |done| >= BLOCK_SIZE;
      if tail == [] {
        assert done + tail == done && FullBlocks(done) + [] == FullBlocks(done);
      } else {
        assert |done + tail| % BLOCK_SIZE == |tail|;
        assert Concat(closed + [md4(tail)]) + [] == Concat(closed + [md4(tail)]);
      }
    }
  }

  /** `root_from_blocks` of a file's own block hashes is its published root. */
  lemma RootFromOwnBlocks(md4: Md4, data: seq<Byte>)
    ensures RootOf(md4, Digests(md4, Split(data)), |data|) == RedRoot(md4, data)
  {
    var done, tail := CutTail(data);
    RootIsRed(md4, done, tail);
  }

  lemma CutTail(data: seq<Byte>) returns (done: seq<Byte>, tail: seq<Byte>)
    ensures data == done + tail && |done| % BLOCK_SIZE == 0 && |tail| < BLOCK_SIZE
  {
    var cut := (|data| / BLOCK_SIZE) * BLOCK_SIZE;
    assert cut % BLOCK_SIZE == 0 && 0 <= |data| - cut < BLOCK_SIZE;
    done, tail := data[..cut], data[cut..];
  }

  lemma {:induction false} DigestsLength(md4: Md4, blocks: seq<seq<Byte>>)
    ensures |Digests(md4, blocks)| == |blocks|
    ensures forall i :: 0 <= i < |blocks| ==> Digests(md4, blocks)[i] == md4(blocks[i])
  {
    if blocks != [] {
      DigestsLength(md4, blocks[1..]);
    }
  }

  // ---- Where the blocks are.

  function CeilDiv(a: nat, b: nat): nat
    requires b > 0
  {
    (a + b - 1) / b
  }

  /** There are max(1, ceil(size / block)) blocks, and block `b` is the bytes
      from `b` block sizes on, cut at the end of the file. */
  lemma {:induction false} SplitIndex(data: seq<Byte>, b: nat)
    requires b < |Split(data)|
    ensures |Split(data)| == Max(1, CeilDiv(|data|, BLOCK_SIZE))
    ensures b * BLOCK_SIZE <= |data|
    ensures Split(data)[b] ==
            data[b * BLOCK_SIZE .. if (b + 1) * BLOCK_SIZE < |data| then (b + 1) * BLOCK_SIZE else |data|]
    decreases |data|
  {
    if |data| > BLOCK_SIZE {
      var rest := data[BLOCK_SIZE..];
      SplitIndex(rest, if b == 0 then 0 else b - 1);
      assert CeilDiv(|data|, BLOCK_SIZE) == CeilDiv(|rest|, BLOCK_SIZE) + 1;
      if b > 0 {
        var hi := if b * BLOCK_SIZE < |rest| then b * BLOCK_SIZE else |rest|;
        SliceOfTail(data, BLOCK_SIZE, (b - 1) * BLOCK_SIZE, hi);
      }
    } else {
      assert data[0..|data|] == data;
    }
  }

  lemma SliceOfTail<T>(s: seq<T>, from: nat, lo: nat, hi: nat)
    requires from <= |s| && lo <= hi <= |s| - from
    ensures s[from..][lo..hi] == s[from + lo .. from + hi]
  {
  }
}
