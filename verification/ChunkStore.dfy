/** On-disk assembly of a download: 256,000-byte chunks are written anywhere,
    9,728,000-byte blocks are trusted once they hash as expected. */
module ChunkStore {
  import opened Wrappers
  import opened Ed2k

  const CHUNKS_PER_BLOCK: nat := 38
  const CHUNK_SIZE: nat := BLOCK_SIZE / CHUNKS_PER_BLOCK
  const U32: nat := 0x1_0000_0000
  const U64_MAX: nat := 0xFFFF_FFFF_FFFF_FFFF
  /** The largest size whose chunk count fits 32 bits. */
  const MAX_SIZE: nat := (U32 - 1) * CHUNK_SIZE

  // ---- Geometry.

  function ChunkCount(size: nat): nat {
    CeilDiv(size, CHUNK_SIZE) % U32
  }

  function BlockCount(size: nat): nat {
    CeilDiv(size, BLOCK_SIZE) % U32
  }

  function BlockOf(chunk: nat): nat {
    chunk / CHUNKS_PER_BLOCK
  }

  predicate InBlock(c: nat, b: nat) {
    b * CHUNKS_PER_BLOCK <= c < (b + 1) * CHUNKS_PER_BLOCK
  }

  function ChunkStart(c: nat): nat {
    c * CHUNK_SIZE
  }

  function ChunkEnd(c: nat, size: nat): nat {
    Min(ChunkStart(c) + CHUNK_SIZE, size)
  }

  function BlockStart(b: nat): nat {
    b * BLOCK_SIZE
  }

  function BlockEnd(b: nat, size: nat): nat {
    Min(BlockStart(b) + BLOCK_SIZE, size)
  }

  lemma CeilDivBounds(a: nat, b: nat)
    requires b > 0
    ensures a <= CeilDiv(a, b) * b < a + b
  {
    var q := CeilDiv(a, b);
    assert a + b - 1 == q * b + (a + b - 1) % b;
  }

  /** No count is cut to 32 bits. */
  lemma CountsAreExact(size: nat)
    requires size <= MAX_SIZE
    ensures size <= ChunkCount(size) * CHUNK_SIZE < size + CHUNK_SIZE
    ensures size <= BlockCount(size) * BLOCK_SIZE < size + BLOCK_SIZE
    ensures BlockCount(size) == CeilDiv(size, BLOCK_SIZE)
  {
    var chunks, blocks := CeilDiv(size, CHUNK_SIZE), CeilDiv(size, BLOCK_SIZE);
    CeilDivBounds(size, CHUNK_SIZE);
    CeilDivBounds(size, BLOCK_SIZE);
    CountsFit(size, chunks, blocks);
    CutIsIdentity(chunks);
    CutIsIdentity(blocks);
  }

  lemma CountsFit(size: nat, chunks: nat, blocks: nat)
    requires size <= 0xFFFF_FFFF * 256_000
    requires chunks * 256_000 < size + 256_000 && blocks * 9_728_000 < size + 9_728_000
    ensures chunks < 0x1_0000_0000 && blocks < 0x1_0000_0000
  {
  }

  lemma CutIsIdentity(n: nat)
    requires n < U32
    ensures n % U32 == n
  {
  }

  /** Chunks never straddle blocks: a chunk's bytes lie in its block. */
  lemma ChunksAlign(c: nat, size: nat)
    requires size <= MAX_SIZE && c < ChunkCount(size)
    ensures ChunkStart(c) < size && BlockOf(c) < BlockCount(size)
    ensures BlockStart(BlockOf(c)) <= ChunkStart(c) < ChunkEnd(c, size) <= BlockEnd(BlockOf(c), size)
  {
    CountsAreExact(size);
    AlignedBounds(c, BlockOf(c), size, ChunkCount(size), BlockCount(size));
  }

  lemma AlignedBounds(c: nat, b: nat, size: nat, chunks: nat, blocks: nat)
    requires b * 38 <= c < (b + 1) * 38 && c < chunks
    requires chunks * 256_000 < size + 256_000 && size <= blocks * 9_728_000
    ensures c * 256_000 < size && b < blocks
    ensures b * 9_728_000 <= c * 256_000 && c * 256_000 + 256_000 <= b * 9_728_000 + 9_728_000
  {
  }

  /** Every block holds at least one byte and starts a chunk of its own. */
  lemma BlocksAreReal(b: nat, size: nat)
    requires size <= MAX_SIZE && b < BlockCount(size)
    ensures BlockStart(b) < BlockEnd(b, size) <= size
    ensures b * CHUNKS_PER_BLOCK < ChunkCount(size) && BlockOf(b * CHUNKS_PER_BLOCK) == b
  {
    CountsAreExact(size);
    RealBounds(b, size, ChunkCount(size), BlockCount(size));
  }

  lemma RealBounds(b: nat, size: nat, chunks: nat, blocks: nat)
    requires b < blocks && blocks * 9_728_000 < size + 9_728_000 && size <= chunks * 256_000
    ensures b * 9_728_000 < size && b * 38 < chunks
  {
  }

  // ---- The store as a value.

  datatype Store = Store(size: nat, file: seq<Byte>, written: seq<bool>, verified: seq<bool>) {
    ghost predicate Valid() {
      && size <= MAX_SIZE && |file| == size
      && |written| == ChunkCount(size) && |verified| == BlockCount(size)
    }

    function Block(b: nat): seq<Byte>
      requires Valid() && b < BlockCount(size)
    {
      BlocksAreReal(b, size);
      file[BlockStart(b)..BlockEnd(b, size)]
    }

    /** All of the block's chunks are on disk. */
    predicate Filled(b: nat)
      requires Valid()
    {
      forall c :: b * CHUNKS_PER_BLOCK <= c < Min((b + 1) * CHUNKS_PER_BLOCK, |written|) ==> written[c]
    }

    predicate Complete() {
      |verified| > 0 && forall b :: 0 <= b < |verified| ==> verified[b]
    }

    predicate Needed(c: nat)
      requires Valid() && c < ChunkCount(size)
    {
      ChunksAlign(c, size);
      !written[c] && !verified[BlockOf(c)]
    }
  }

  function WithFile(file: seq<Byte>, allWritten: bool): (st: Store)
    requires |file| <= MAX_SIZE
    ensures st.Valid()
  {
    Store(|file|, file, seq(ChunkCount(|file|), i => allWritten), seq(BlockCount(|file|), i => false))
  }

  function Zeros(n: nat): seq<Byte> {
    seq(n, i => 0)
  }

  predicate Fits(st: Store, c: nat, data: seq<Byte>)
    requires st.Valid()
  {
    c < ChunkCount(st.size) && |data| == ChunkEnd(c, st.size) - ChunkStart(c)
  }

  function Wrote(st: Store, c: nat, data: seq<Byte>): (st': Store)
    requires st.Valid() && Fits(st, c, data)
    ensures st'.Valid()
  {
    ChunksAlign(c, st.size);
    st.(file := st.file[..ChunkStart(c)] + data + st.file[ChunkEnd(c, st.size)..], written := st.written[c := true])
  }

  /** Block `b` is up for verification. */
  predicate Due(st: Store, b: nat)
    requires st.Valid() && b < BlockCount(st.size)
  {
    !st.verified[b] && st.Filled(b)
  }

  predicate Matches(md4: Md4, st: Store, hashes: seq<Digest>, b: nat)
    requires st.Valid() && |hashes| == BlockCount(st.size) && b < BlockCount(st.size)
  {
    BlockHash(md4, st.Block(b)) == hashes[b]
  }

  /** A pass would give the block up. */
  predicate Fails(md4: Md4, st: Store, hashes: seq<Digest>, b: nat)
    requires st.Valid() && |hashes| == BlockCount(st.size) && b < BlockCount(st.size)
  {
    Due(st, b) && !Matches(md4, st, hashes, b)
  }

  /** One verification pass: a due block is trusted if it matches, and otherwise
      gives up exactly its own chunks. */
  function Verified(md4: Md4, st: Store, hashes: seq<Digest>): (st': Store)
    requires st.Valid() && |hashes| == BlockCount(st.size)
    ensures st'.Valid()
  {
    VerifiedUpTo(md4, st, hashes, BlockCount(st.size))
  }

  /** A pass that has come as far as block `n`. */
  function VerifiedUpTo(md4: Md4, st: Store, hashes: seq<Digest>, n: nat): (st': Store)
    requires st.Valid() && |hashes| == BlockCount(st.size) && n <= BlockCount(st.size)
    ensures st'.Valid()
  {
    st.(written := seq(|st.written|, (c: nat) requires c < |st.written| =>
                                       ChunksAlign(c, st.size);
                                       var b := BlockOf(c);
                                       st.written[c] && !(b < n && Due(st, b) && !Matches(md4, st, hashes, b))),
        verified := seq(|st.verified|, (b: nat) requires b < |st.verified| =>
                                         st.verified[b] || (b < n && Due(st, b) && Matches(md4, st, hashes, b))))
  }

  /** Blocks among the first `n` that a pass starts to trust. */
  function Gained(md4: Md4, st: Store, hashes: seq<Digest>, n: nat): nat
    requires st.Valid() && |hashes| == BlockCount(st.size) && n <= BlockCount(st.size)
  {
    if n == 0 then 0
    else Gained(md4, st, hashes, n - 1) + (if Due(st, n - 1) && Matches(md4, st, hashes, n - 1) then 1 else 0)
  }

  // ---- The program.

  class ChunkStore {
    const sizeBytes: nat
    var file: seq<Byte>
    var written: seq<bool>
    var verified: seq<bool>

    ghost function Value(): Store
      reads this
    {
      Store(sizeBytes, file, written, verified)
    }

    ghost predicate Valid()
      reads this
    {
      Value().Valid()
    }

    /** A fresh file, all chunks absent. */
    constructor Create(size: nat)
      requires size <= MAX_SIZE
      ensures Valid() && Value() == WithFile(Zeros(size), false)
    {
      sizeBytes := size;
      file := seq(size, i => 0);
      written := seq(ChunkCount(size), i => false);
      verified := seq(BlockCount(size), i => false);
    }

    /** Resumes from a file of the right size; anything else starts afresh. */
    constructor Open(onDisk: Option<seq<Byte>>, size: nat)
      requires size <= MAX_SIZE
      ensures Valid()
      ensures Value() == if onDisk.Some? && |onDisk.value| == size then WithFile(onDisk.value, true)
                         else WithFile(Zeros(size), false)
    {
      sizeBytes := size;
      var present := onDisk.Some? && |onDisk.value| == size;
      file := if present then onDisk.value else seq(size, i => 0);
      written := seq(ChunkCount(size), i => present);
      verified := seq(BlockCount(size), i => false);
    }

    method BlockHashesMatch(md4: Md4, root: Digest, hashes: seq<Digest>) returns (ok: bool)
      requires Valid()
      ensures ok == (|hashes| % U32 == |verified| && RootOf(md4, hashes, sizeBytes) == root)
    {
      if |hashes| % U32 != |verified| {
        return false;
      }
      var computed := RootFromBlocks(md4, hashes, sizeBytes);
      ok := computed == root;
    }

    method WriteChunk(c: nat, data: seq<Byte>) returns (ok: bool)
      requires Valid()
      modifies this
      ensures Valid() && ok == old(Fits(Value(), c, data))
      ensures Value() == if ok then old(Wrote(Value(), c, data)) else old(Value())
    {
      if c >= ChunkCount(sizeBytes) || |data| != ChunkEnd(c, sizeBytes) - ChunkStart(c) {
        return false;
      }
      ChunksAlign(c, sizeBytes);
      file := file[..ChunkStart(c)] + data + file[ChunkEnd(c, sizeBytes)..];
      written := written[c := true];
      ok := true;
    }

    /** Checks every filled, untrusted block. */
    method Verify(md4: Md4, hashes: seq<Digest>) returns (newly: nat, mismatched: seq<nat>)
      requires Valid() && |hashes| == BlockCount(sizeBytes)
      modifies this
      ensures Valid() && Value() == Verified(md4, old(Value()), hashes)
      ensures forall b: nat :: b in mismatched <==> b < BlockCount(sizeBytes) && Fails(md4, old(Value()), hashes, b)
      ensures newly == Gained(md4, old(Value()), hashes, BlockCount(sizeBytes))
    {
      newly, mismatched := 0, [];
      ghost var st := Value();
      NothingYet(md4, st, hashes);
      for b := 0 to BlockCount(sizeBytes)
        invariant Valid() && Value() == VerifiedUpTo(md4, st, hashes, b)
        invariant forall x: nat :: x in mismatched <==> x < b && Fails(md4, st, hashes, x)
        invariant newly == Gained(md4, st, hashes, b)
      {
        var outcome := VerifyBlock(md4, hashes, b, st);
        match outcome
        case Some(true) => newly := newly + 1;
        case Some(false) => mismatched := mismatched + [b];
        case None =>
      }
    }

    /** One block's turn in a pass: whether it was checked, and how that went. */
    method VerifyBlock(md4: Md4, hashes: seq<Digest>, b: nat, ghost st: Store) returns (outcome: Option<bool>)
      requires Valid() && st.Valid() && st.size == sizeBytes
      requires |hashes| == BlockCount(sizeBytes) && b < BlockCount(sizeBytes)
      requires Value() == VerifiedUpTo(md4, st, hashes, b)
      modifies this
      ensures Valid() && Value() == VerifiedUpTo(md4, st, hashes, b + 1)
      ensures outcome == if Due(st, b) then Some(Matches(md4, st, hashes, b)) else None
    {
      UntouchedYet(md4, st, hashes, b);
      BlocksAreReal(b, sizeBytes);
      NextBlock(md4, st, hashes, b);
      if verified[b] {
        return None;
      }
      var filled := IsFilled(b);
      if !filled {
        return None;
      }
      if BlockHash(md4, file[BlockStart(b)..BlockEnd(b, sizeBytes)]) == hashes[b] {
        verified := verified[b := true];
        outcome := Some(true);
      } else {
        ClearBlock(b);
        outcome := Some(false);
      }
    }

    method IsFilled(b: nat) returns (filled: bool)
      requires Valid()
      ensures filled == Value().Filled(b)
    {
      var last := Min((b + 1) * CHUNKS_PER_BLOCK, ChunkCount(sizeBytes));
      var c := b * CHUNKS_PER_BLOCK;
      while c < last
        invariant forall i :: b * CHUNKS_PER_BLOCK <= i < c && i < last ==> written[i]
      {
        if !written[c] {
          return false;
        }
        c := c + 1;
      }
      filled := true;
    }

    method ClearBlock(b: nat)
      requires Valid()
      modifies this`written
      ensures Valid()
      ensures forall c :: 0 <= c < |written| ==> written[c] == (old(written)[c] && !InBlock(c, b))
    {
      var last := Min((b + 1) * CHUNKS_PER_BLOCK, ChunkCount(sizeBytes));
      var c := b * CHUNKS_PER_BLOCK;
      while c < last
        invariant b * CHUNKS_PER_BLOCK <= c && |written| == |old(written)|
        invariant c <= last || c == b * CHUNKS_PER_BLOCK
        invariant forall i :: 0 <= i < |written| ==> written[i] == (old(written)[i] && !(InBlock(i, b) && i < c))
      {
        written := written[c := false];
        c := c + 1;
      }
    }

    method IsComplete() returns (complete: bool)
      requires Valid()
      ensures complete == Value().Complete()
    {
      complete := |verified| > 0;
      for b := 0 to |verified|
        invariant complete == (|verified| > 0 && forall i :: 0 <= i < b ==> verified[i])
      {
        complete := complete && verified[b];
      }
    }

    /** The chunks to ask for, in order. */
    method NeededChunks() returns (needed: seq<nat>)
      requires Valid()
      ensures forall c: nat :: c in needed <==> c < ChunkCount(sizeBytes) && Value().Needed(c)
      ensures forall i, j :: 0 <= i < j < |needed| ==> needed[i] < needed[j]
    {
      needed := [];
      for c := 0 to ChunkCount(sizeBytes)
        invariant forall x: nat :: x in needed <==> x < c && Value().Needed(x)
        invariant forall i, j :: 0 <= i < j < |needed| ==> needed[i] < needed[j]
      {
        ChunksAlign(c, sizeBytes);
        if !written[c] && !verified[BlockOf(c)] {
          assert forall i :: 0 <= i < |needed| ==> needed[i] in needed;
          needed := needed + [c];
        }
      }
    }

    /** Progress in basis points, by trusted bytes. */
    method ProgressBps() returns (bps: nat)
      requires Valid()
      ensures bps == Progress(Value())
    {
      if |verified| == 0 {
        return 10_000;
      }
      var sum := 0;
      for b := 0 to |verified|
        invariant sum == TrustedBytes(Value(), b)
      {
        if verified[b] {
          sum := sum + (BlockEnd(b, sizeBytes) - BlockStart(b));
        }
        BlocksAreReal(b, sizeBytes);
      }
      bps := Bps(sum, sizeBytes);
    }
  }

  function TrustedBytes(st: Store, n: nat): nat
    requires st.Valid() && n <= |st.verified|
  {
    if n == 0 then 0
    else
      BlocksAreReal(n - 1, st.size);
      TrustedBytes(st, n - 1) + (if st.verified[n - 1] then BlockEnd(n - 1, st.size) - BlockStart(n - 1) else 0)
  }

  /** Basis points of `whole`, as the program computes them: a saturating 64-bit
      product, an integer quotient, cut to 16 bits. */
  function Bps(part: nat, whole: nat): nat {
    Quotient(Min(part * 10_000, U64_MAX), Max(whole, 1)) % 0x1_0000
  }

  function Quotient(a: nat, b: nat): nat
    requires b > 0
  {
    a / b
  }

  function Progress(st: Store): nat
    requires st.Valid()
  {
    if |st.verified| == 0 then 10_000
    else Bps(TrustedBytes(st, |st.verified|), st.size)
  }

  /** A pass only ever touches blocks it has come to. */
  lemma UntouchedYet(md4: Md4, st: Store, hashes: seq<Digest>, b: nat)
    requires st.Valid() && |hashes| == BlockCount(st.size) && b < BlockCount(st.size)
    ensures var now := VerifiedUpTo(md4, st, hashes, b);
            now.file == st.file && now.verified[b] == st.verified[b] && now.Filled(b) == st.Filled(b)
  {
    var now := VerifiedUpTo(md4, st, hashes, b);
    forall c | b * CHUNKS_PER_BLOCK <= c < Min((b + 1) * CHUNKS_PER_BLOCK, |st.written|)
      ensures now.written[c] == st.written[c]
    {
      assert BlockOf(c) == b;
    }
  }

  lemma NothingYet(md4: Md4, st: Store, hashes: seq<Digest>)
    requires st.Valid() && |hashes| == BlockCount(st.size)
    ensures VerifiedUpTo(md4, st, hashes, 0) == st
  {
  }

  /** What a pass changes at block `b`. */
  lemma NextBlock(md4: Md4, st: Store, hashes: seq<Digest>, b: nat)
    requires st.Valid() && |hashes| == BlockCount(st.size) && b < BlockCount(st.size)
    ensures var now, then' := VerifiedUpTo(md4, st, hashes, b), VerifiedUpTo(md4, st, hashes, b + 1);
            && then'.file == now.file && then'.size == now.size
            && then'.verified ==
               (if Due(st, b) && Matches(md4, st, hashes, b) then now.verified[b := true] else now.verified)
            && (if Due(st, b) && !Matches(md4, st, hashes, b)
                then forall c :: 0 <= c < |now.written| ==> then'.written[c] == (now.written[c] && !InBlock(c, b))
                else then'.written == now.written)
  {
    assert forall c: nat :: InBlock(c, b) <==> BlockOf(c) == b;
  }

  // ---- Every run of a store.

  datatype Action = WriteAt(chunk: nat, data: seq<Byte>) | Pass

  function After(md4: Md4, hashes: seq<Digest>, st: Store, a: Action): (st': Store)
    requires st.Valid() && |hashes| == BlockCount(st.size)
    ensures st'.Valid() && st'.size == st.size
  {
    match a
    case WriteAt(c, data) => if Fits(st, c, data) then Wrote(st, c, data) else st
    case Pass => Verified(md4, st, hashes)
  }

  /** The action writes into no block that is already trusted.  The program does
      not refuse such a write; its scheduler never asks for one. */
  predicate Spares(st: Store, a: Action)
    requires st.Valid()
  {
    a.WriteAt? && Fits(st, a.chunk, a.data) ==> (ChunksAlign(a.chunk, st.size); !st.verified[BlockOf(a.chunk)])
  }

  function RunFrom(md4: Md4, hashes: seq<Digest>, st: Store, run: seq<Action>): (st': Store)
    requires st.Valid() && |hashes| == BlockCount(st.size)
    ensures st'.Valid() && st'.size == st.size
    decreases |run|
  {
    if run == [] then st else RunFrom(md4, hashes, After(md4, hashes, st, run[0]), run[1..])
  }

  predicate SparesAll(md4: Md4, hashes: seq<Digest>, st: Store, run: seq<Action>)
    requires st.Valid() && |hashes| == BlockCount(st.size)
    decreases |run|
  {
    run == [] || (Spares(st, run[0]) && SparesAll(md4, hashes, After(md4, hashes, st, run[0]), run[1..]))
  }

  /** Every trusted block's bytes on disk hash as expected. */
  ghost predicate Trustworthy(md4: Md4, hashes: seq<Digest>, st: Store)
    requires st.Valid() && |hashes| == BlockCount(st.size)
  {
    forall b :: 0 <= b < |st.verified| && st.verified[b] ==> Matches(md4, st, hashes, b)
  }

  /** A chunk write leaves every other block's bytes alone. */
  lemma OtherBlocksKept(st: Store, c: nat, data: seq<Byte>, b: nat)
    requires st.Valid() && Fits(st, c, data) && b < BlockCount(st.size) && b != BlockOf(c)
    ensures Wrote(st, c, data).Block(b) == st.Block(b)
  {
    ChunksAlign(c, st.size);
    BlocksAreReal(b, st.size);
    var lo, hi := ChunkStart(c), ChunkEnd(c, st.size);
    SpliceOutside(st.file, lo, hi, data, BlockStart(b), BlockEnd(b, st.size));
  }

  lemma SpliceOutside<T>(s: seq<T>, lo: nat, hi: nat, data: seq<T>, from: nat, to: nat)
    requires lo <= hi <= |s| && |data| == hi - lo && from <= to <= |s|
    requires to <= lo || hi <= from
    ensures (s[..lo] + data + s[hi..])[from..to] == s[from..to]
  {
  }

  lemma ActionKeepsTrust(md4: Md4, hashes: seq<Digest>, st: Store, a: Action)
    requires st.Valid() && |hashes| == BlockCount(st.size)
    requires Trustworthy(md4, hashes, st) && Spares(st, a)
    ensures Trustworthy(md4, hashes, After(md4, hashes, st, a))
  {
    var st' := After(md4, hashes, st, a);
    forall b | 0 <= b < |st'.verified| && st'.verified[b] ensures Matches(md4, st', hashes, b) {
      if a.WriteAt? && Fits(st, a.chunk, a.data) {
        OtherBlocksKept(st, a.chunk, a.data, b);
      } else {
        assert st'.Block(b) == st.Block(b);
      }
    }
  }

  lemma {:induction false} RunKeepsTrust(md4: Md4, hashes: seq<Digest>, st: Store, run: seq<Action>)
    requires st.Valid() && |hashes| == BlockCount(st.size)
    requires Trustworthy(md4, hashes, st) && SparesAll(md4, hashes, st, run)
    ensures Trustworthy(md4, hashes, RunFrom(md4, hashes, st, run))
    decreases |run|
  {
    if run != [] {
      ActionKeepsTrust(md4, hashes, st, run[0]);
      RunKeepsTrust(md4, hashes, After(md4, hashes, st, run[0]), run[1..]);
    }
  }

  /** The bytes of one chunk on disk. */
  function ChunkBytes(st: Store, c: nat): seq<Byte>
    requires st.Valid() && c < ChunkCount(st.size)
  {
    ChunksAlign(c, st.size);
    st.file[ChunkStart(c)..ChunkEnd(c, st.size)]
  }

  /** Whatever hash function and list the store can be trusted under, it still can
      after the write. */
  ghost predicate KeepsEveryTrust(st: Store, c: nat, data: seq<Byte>)
    requires st.Valid() && Fits(st, c, data)
  {
    forall md4: Md4, hashes: seq<Digest> :: |hashes| == BlockCount(st.size) && Trustworthy(md4, hashes, st) ==>
                                              Trustworthy(md4, hashes, Wrote(st, c, data))
  }

  /** A write is sure to keep the store trustworthy exactly if its block is not
      trusted yet, or the bytes are the ones already there. */
  lemma RewriteKeepsTrustIff(st: Store, c: nat, data: seq<Byte>)
    requires st.Valid() && Fits(st, c, data)
    ensures BlockOf(c) < |st.verified|
    ensures KeepsEveryTrust(st, c, data) <==> !st.verified[BlockOf(c)] || data == ChunkBytes(st, c)
  {
    ChunksAlign(c, st.size);
    if data == ChunkBytes(st, c) {
      SameBytes(st, c);
    } else if st.verified[BlockOf(c)] {
      var md4, hashes := Telling(st.Block(BlockOf(c))), BlocksUnder(Telling(st.Block(BlockOf(c))), st);
      TrustedUnderOwn(md4, st);
      BlockChanges(st, c, data);
      assert !Matches(md4, Wrote(st, c, data), hashes, BlockOf(c));
      assert !Trustworthy(md4, hashes, Wrote(st, c, data));
    } else {
      forall md4: Md4, hashes: seq<Digest> | |hashes| == BlockCount(st.size) && Trustworthy(md4, hashes, st)
        ensures Trustworthy(md4, hashes, Wrote(st, c, data))
      {
        ActionKeepsTrust(md4, hashes, st, WriteAt(c, data));
      }
    }
  }

  /** A hash function that tells one block from all others. */
  function Telling(block: seq<Byte>): Md4 {
    bytes => if bytes == block then [1] else [0]
  }

  function BlocksUnder(md4: Md4, st: Store): seq<Digest>
    requires st.Valid()
  {
    seq(BlockCount(st.size), (b: nat) requires b < BlockCount(st.size) => md4(st.Block(b)))
  }

  lemma TrustedUnderOwn(md4: Md4, st: Store)
    requires st.Valid()
    ensures Trustworthy(md4, BlocksUnder(md4, st), st)
  {
  }

  lemma SameBytes(st: Store, c: nat)
    requires st.Valid() && c < ChunkCount(st.size)
    ensures Fits(st, c, ChunkBytes(st, c)) && KeepsEveryTrust(st, c, ChunkBytes(st, c))
  {
    ChunksAlign(c, st.size);
    var st' := Wrote(st, c, ChunkBytes(st, c));
    assert st'.file == st.file;
    forall md4: Md4, hashes: seq<Digest> | |hashes| == BlockCount(st.size) && Trustworthy(md4, hashes, st)
      ensures Trustworthy(md4, hashes, st')
    {
      forall b | 0 <= b < |st'.verified| && st'.verified[b] ensures Matches(md4, st', hashes, b) {
        assert st'.Block(b) == st.Block(b);
      }
    }
  }

  /** Other bytes in a chunk are other bytes in its block. */
  lemma BlockChanges(st: Store, c: nat, data: seq<Byte>)
    requires st.Valid() && Fits(st, c, data) && data != ChunkBytes(st, c)
    ensures BlockOf(c) < BlockCount(st.size) && Wrote(st, c, data).Block(BlockOf(c)) != st.Block(BlockOf(c))
  {
    ChunksAlign(c, st.size);
    var b, lo, hi := BlockOf(c), ChunkStart(c), ChunkEnd(c, st.size);
    BlocksAreReal(b, st.size);
    SpliceInside(st.file, lo, hi, data, BlockStart(b), BlockEnd(b, st.size));
  }

  lemma SpliceInside<T>(s: seq<T>, lo: nat, hi: nat, data: seq<T>, from: nat, to: nat)
    requires from <= lo <= hi <= to <= |s| && |data| == hi - lo && data != s[lo..hi]
    ensures (s[..lo] + data + s[hi..])[from..to] != s[from..to]
  {
    var s' := s[..lo] + data + s[hi..];
    var k :| 0 <= k < |data| && data[k] != s[lo..hi][k];
    assert s'[from..to][lo + k - from] == data[k] && s[from..to][lo + k - from] == s[lo + k];
  }

  /** A store that loses it: a one-byte file, verified and complete, is overwritten,
      stays complete, and no longer has the root it was verified against. */
  lemma OverwriteGoesUnnoticed(md4: Md4, x: Byte, y: Byte)
    requires md4([x]) != md4([y])
    ensures var st, hashes := Store(1, [x], [true], [true]), [md4([x])];
            && st.Valid() && |hashes| == BlockCount(1) && Trustworthy(md4, hashes, st)
            && st.Complete() && Fits(st, 0, [y])
            && RedRoot(md4, st.file) == RootOf(md4, hashes, 1)
            && Wrote(st, 0, [y]).Complete() && RedRoot(md4, Wrote(st, 0, [y]).file) != RootOf(md4, hashes, 1)
  {
    CountsAreExact(1);
    var st, hashes := Store(1, [x], [true], [true]), [md4([x])];
    assert st.Valid() && st.Block(0) == [x];
    assert Trustworthy(md4, hashes, st);
    CompleteHasRoot(md4, hashes, st);
    var st' := Wrote(st, 0, [y]);
    assert st'.file == [y];
    OneBlockRoot(md4, [x]);
    OneBlockRoot(md4, [y]);
  }

  lemma OneBlockRoot(md4: Md4, data: seq<Byte>)
    requires |data| < BLOCK_SIZE
    ensures RedRoot(md4, data) == md4(data)
  {
    assert RedSplit(data) == [data];
    assert [data][1..] == [];
    assert Digests(md4, [data]) == [md4(data)];
  }

  /** For a file with bytes in it, the store's blocks are the hash's blocks. */
  lemma BlocksAreSplit(st: Store, b: nat)
    requires st.Valid() && b < BlockCount(st.size)
    ensures |Split(st.file)| == BlockCount(st.size) && Split(st.file)[b] == st.Block(b)
  {
    CountsAreExact(st.size);
    SplitIndex(st.file, 0);
    SplitIndex(st.file, b);
  }

  /** A complete, trustworthy store holds a file with the expected root. */
  lemma CompleteHasRoot(md4: Md4, hashes: seq<Digest>, st: Store)
    requires st.Valid() && |hashes| == BlockCount(st.size)
    requires Trustworthy(md4, hashes, st) && st.Complete()
    ensures Digests(md4, Split(st.file)) == hashes
    ensures RedRoot(md4, st.file) == RootOf(md4, hashes, st.size)
  {
    BlocksAreSplit(st, 0);
    DigestsLength(md4, Split(st.file));
    forall b | 0 <= b < |hashes| ensures Digests(md4, Split(st.file))[b] == hashes[b] {
      BlocksAreSplit(st, b);
      assert Matches(md4, st, hashes, b);
    }
    assert Digests(md4, Split(st.file)) == hashes;
    RootFromOwnBlocks(md4, st.file);
  }

  /** The download's promise: whatever chunks arrive in whatever order, from a
      fresh or a resumed file, a store that reports completion against a hash list
      validated for `root` has a file with exactly that ed2k root on disk. */
  lemma CompletionMeansTheFile(
    md4: Md4, hashes: seq<Digest>, root: Digest, file: seq<Byte>, resumed: bool, run: seq<Action>)
    requires |file| <= MAX_SIZE && |hashes| == BlockCount(|file|) && RootOf(md4, hashes, |file|) == root
    requires SparesAll(md4, hashes, WithFile(file, resumed), run)
    ensures var st := RunFrom(md4, hashes, WithFile(file, resumed), run);
            st.Complete() ==> RedRoot(md4, st.file) == root && Digests(md4, Split(st.file)) == hashes
  {
    RunKeepsTrust(md4, hashes, WithFile(file, resumed), run);
    var st := RunFrom(md4, hashes, WithFile(file, resumed), run);
    if st.Complete() {
      CompleteHasRoot(md4, hashes, st);
    }
  }

  /** Right after a pass, nothing left to ask for means every block is trusted:
      for a file with bytes in it, that is completion. */
  lemma NothingNeededIsComplete(md4: Md4, hashes: seq<Digest>, st: Store)
    requires st.Valid() && |hashes| == BlockCount(st.size)
    ensures var st' := Verified(md4, st, hashes);
            (forall c: nat :: c < ChunkCount(st.size) ==> !st'.Needed(c)) && st.size > 0 <==> st'.Complete()
  {
    var st' := Verified(md4, st, hashes);
    CountsAreExact(st.size);
    if st.size > 0 && !st'.Complete() {
      var b :| 0 <= b < |st'.verified| && !st'.verified[b];
      var c := UnwrittenChunk(md4, hashes, st, b);
      assert st'.Needed(c);
    }
    if st'.Complete() {
      forall c: nat | c < ChunkCount(st.size) ensures !st'.Needed(c) {
        ChunksAlign(c, st.size);
      }
    }
  }

  /** An untrusted block has an absent chunk after a pass. */
  lemma UnwrittenChunk(md4: Md4, hashes: seq<Digest>, st: Store, b: nat) returns (c: nat)
    requires st.Valid() && |hashes| == BlockCount(st.size) && b < BlockCount(st.size)
    requires !Verified(md4, st, hashes).verified[b]
    ensures c < ChunkCount(st.size) && BlockOf(c) == b && !Verified(md4, st, hashes).written[c]
  {
    BlocksAreReal(b, st.size);
    if st.Filled(b) {
      c := b * CHUNKS_PER_BLOCK;
    } else {
      c :| b * CHUNKS_PER_BLOCK <= c < Min((b + 1) * CHUNKS_PER_BLOCK, |st.written|) && !st.written[c];
    }
  }

  /** Resuming trusts exactly the blocks that are right on disk. */
  lemma ResumeTrustsRightBlocks(md4: Md4, hashes: seq<Digest>, file: seq<Byte>, b: nat)
    requires |file| <= MAX_SIZE && |hashes| == BlockCount(|file|) && b < BlockCount(|file|)
    ensures Verified(md4, WithFile(file, true), hashes).verified[b] <==> Matches(md4, WithFile(file, true), hashes, b)
  {
    assert Due(WithFile(file, true), b);
  }

  // ---- A download that gets everything is complete.

  /** A written chunk is asked for no more, and no other chunk is affected. */
  lemma WrittenIsNotNeeded(st: Store, c: nat, data: seq<Byte>, x: nat)
    requires st.Valid() && Fits(st, c, data) && x < ChunkCount(st.size)
    ensures Wrote(st, c, data).Needed(x) <==> x != c && st.Needed(x)
  {
    ChunksAlign(x, st.size);
  }

  /** The bytes of a chunk of the file that is wanted. */
  function ChunkOf(target: seq<Byte>, c: nat): seq<Byte>
    requires |target| <= MAX_SIZE && c < ChunkCount(|target|)
  {
    ChunksAlign(c, |target|);
    target[ChunkStart(c)..ChunkEnd(c, |target|)]
  }

  /** Every chunk the store counts as written is right. */
  ghost predicate RightSoFar(st: Store, target: seq<Byte>) {
    && st.Valid() && |target| == st.size
    && forall c: nat :: c < ChunkCount(st.size) && st.written[c] ==> ChunkBytes(st, c) == ChunkOf(target, c)
  }

  /** The action writes a right chunk, or is a pass. */
  ghost predicate Helps(target: seq<Byte>, a: Action)
    requires |target| <= MAX_SIZE
  {
    a.WriteAt? ==> a.chunk < ChunkCount(|target|) && a.data == ChunkOf(target, a.chunk)
  }

  ghost predicate HashesOf(md4: Md4, hashes: seq<Digest>, target: seq<Byte>)
    requires |target| <= MAX_SIZE
  {
    && |hashes| == BlockCount(|target|)
    && forall b: nat :: b < |hashes| ==> hashes[b] == BlockHash(md4, WithFile(target, true).Block(b))
  }

  lemma SpliceAt<T>(s: seq<T>, lo: nat, hi: nat, data: seq<T>)
    requires lo <= hi <= |s| && |data| == hi - lo
    ensures (s[..lo] + data + s[hi..])[lo..hi] == data
  {
  }

  /** Chunks do not overlap. */
  lemma ChunksApart(c: nat, d: nat, size: nat)
    requires c != d
    ensures ChunkEnd(c, size) <= ChunkStart(d) || ChunkEnd(d, size) <= ChunkStart(c)
  {
    if c < d {
      assert (c + 1) * CHUNK_SIZE <= d * CHUNK_SIZE;
    } else {
      assert (d + 1) * CHUNK_SIZE <= c * CHUNK_SIZE;
    }
  }

  lemma WriteStaysRight(st: Store, target: seq<Byte>, c: nat)
    requires RightSoFar(st, target) && c < ChunkCount(st.size)
    ensures Fits(st, c, ChunkOf(target, c)) && RightSoFar(Wrote(st, c, ChunkOf(target, c)), target)
  {
    ChunksAlign(c, st.size);
    var st' := Wrote(st, c, ChunkOf(target, c));
    forall d: nat | d < ChunkCount(st.size) && st'.written[d] ensures ChunkBytes(st', d) == ChunkOf(target, d) {
      ChunksAlign(d, st.size);
      var lo, hi := ChunkStart(c), ChunkEnd(c, st.size);
      if d == c {
        SpliceAt(st.file, lo, hi, ChunkOf(target, c));
      } else {
        ChunksApart(c, d, st.size);
        SpliceOutside(st.file, lo, hi, ChunkOf(target, c), ChunkStart(d), ChunkEnd(d, st.size));
      }
    }
  }

  /** The chunk a byte of a block lies in. */
  lemma ChunkHolding(b: nat, size: nat, k: nat) returns (c: nat)
    requires size <= MAX_SIZE && b < BlockCount(size) && BlockStart(b) <= k < BlockEnd(b, size)
    ensures c < ChunkCount(size) && b * CHUNKS_PER_BLOCK <= c < (b + 1) * CHUNKS_PER_BLOCK
    ensures ChunkStart(c) <= k < ChunkEnd(c, size)
  {
    c := k / CHUNK_SIZE;
    CountsAreExact(size);
    HoldingBounds(b, size, k, c, ChunkCount(size));
  }

  lemma HoldingBounds(b: nat, size: nat, k: nat, c: nat, chunks: nat)
    requires b * 9_728_000 <= k < b * 9_728_000 + 9_728_000 && k < size <= chunks * 256_000
    requires c * 256_000 <= k < c * 256_000 + 256_000
    ensures c < chunks && b * 38 <= c < (b + 1) * 38
  {
  }

  /** A block whose chunks are all written, and right, is right. */
  lemma FilledIsRight(st: Store, target: seq<Byte>, b: nat)
    requires RightSoFar(st, target) && b < BlockCount(st.size) && st.Filled(b)
    ensures st.Block(b) == WithFile(target, true).Block(b)
  {
    BlocksAreReal(b, st.size);
    forall k: nat | BlockStart(b) <= k < BlockEnd(b, st.size) ensures st.file[k] == target[k] {
      var c := ChunkHolding(b, st.size, k);
      RightByte(st, target, c, k);
    }
  }

  /** So a pass gives nothing up and trusts every filled block. */
  lemma PassStaysRight(md4: Md4, hashes: seq<Digest>, st: Store, target: seq<Byte>)
    requires RightSoFar(st, target) && HashesOf(md4, hashes, target)
    ensures var st' := Verified(md4, st, hashes);
            && st'.written == st.written && st'.file == st.file && RightSoFar(st', target)
            && forall b: nat :: b < |st.verified| && st.Filled(b) ==> st'.verified[b]
  {
    forall b: nat | b < BlockCount(st.size) && st.Filled(b) ensures Matches(md4, st, hashes, b) {
      FilledIsRight(st, target, b);
    }
    var st' := Verified(md4, st, hashes);
    forall c: nat | c < |st.written| ensures st'.written[c] == st.written[c] {
      ChunksAlign(c, st.size);
    }
    assert st'.written == st.written;
  }

  ghost predicate WritesChunk(run: seq<Action>, c: nat) {
    exists i :: 0 <= i < |run| && run[i].WriteAt? && run[i].chunk == c
  }

  lemma {:induction false} RunStaysRight(
    md4: Md4, hashes: seq<Digest>, st: Store, target: seq<Byte>, run: seq<Action>, c: nat)
    requires RightSoFar(st, target) && HashesOf(md4, hashes, target) && c < ChunkCount(st.size)
    requires forall a :: a in run ==> Helps(target, a)
    ensures var st' := RunFrom(md4, hashes, st, run);
            RightSoFar(st', target) && (st.written[c] || WritesChunk(run, c) ==> st'.written[c])
    decreases |run|
  {
    if run != [] {
      var a := run[0];
      assert a in run && forall x :: x in run[1..] ==> x in run;
      if a.WriteAt? {
        WriteStaysRight(st, target, a.chunk);
      } else {
        PassStaysRight(md4, hashes, st, target);
      }
      RunStaysRight(md4, hashes, After(md4, hashes, st, a), target, run[1..], c);
      if WritesChunk(run, c) && !(a.WriteAt? && a.chunk == c) {
        var i :| 0 <= i < |run| && run[i].WriteAt? && run[i].chunk == c;
        assert run[1..][i - 1] == run[i];
      }
    }
  }

  /** The other half of the download's promise: right chunks in any order, repeated
      and with passes anywhere between, leave a file with bytes in it complete after
      one more pass as soon as every chunk has come once, and it is the file. */
  lemma DownloadCompletes(md4: Md4, hashes: seq<Digest>, target: seq<Byte>, junk: seq<Byte>, run: seq<Action>)
    requires 0 < |target| <= MAX_SIZE && |junk| == |target| && HashesOf(md4, hashes, target)
    requires forall a :: a in run ==> Helps(target, a)
    requires forall c: nat :: c < ChunkCount(|target|) ==> WritesChunk(run, c)
    ensures var st := Verified(md4, RunFrom(md4, hashes, WithFile(junk, false), run), hashes);
            st.Complete() && st.file == target
  {
    var st0 := WithFile(junk, false);
    var st := RunFrom(md4, hashes, st0, run);
    forall c: nat | c < ChunkCount(st.size) ensures RightSoFar(st, target) && st.written[c] {
      RunStaysRight(md4, hashes, st0, target, run, c);
    }
    CountsAreExact(st.size);
    BlocksAreReal(0, st.size);
    AllRight(st, target);
    PassStaysRight(md4, hashes, st, target);
    forall b: nat | b < |st.verified| ensures st.Filled(b) {
    }
  }

  lemma AllRight(st: Store, target: seq<Byte>)
    requires RightSoFar(st, target) && forall c: nat :: c < ChunkCount(st.size) ==> st.written[c]
    ensures st.file == target
  {
    forall k: nat | k < st.size ensures st.file[k] == target[k] {
      var b := BlockHolding(st.size, k);
      var c := ChunkHolding(b, st.size, k);
      RightByte(st, target, c, k);
    }
  }

  lemma BlockHolding(size: nat, k: nat) returns (b: nat)
    requires size <= MAX_SIZE && k < size
    ensures b < BlockCount(size) && BlockStart(b) <= k < BlockEnd(b, size)
  {
    b := k / BLOCK_SIZE;
    CountsAreExact(size);
  }

  lemma RightByte(st: Store, target: seq<Byte>, c: nat, k: nat)
    requires RightSoFar(st, target) && c < ChunkCount(st.size) && st.written[c]
    requires ChunkStart(c) <= k < ChunkEnd(c, st.size)
    ensures k < st.size && st.file[k] == target[k]
  {
    ChunksAlign(c, st.size);
    SliceAt(st.file, ChunkStart(c), ChunkEnd(c, st.size), k);
    SliceAt(target, ChunkStart(c), ChunkEnd(c, st.size), k);
  }

  lemma SliceAt<T>(s: seq<T>, lo: nat, hi: nat, k: nat)
    requires lo <= k < hi <= |s|
    ensures s[lo..hi][k - lo] == s[k]
  {
  }

  // ---- Progress.

  lemma {:induction false} TrustedBytesBound(st: Store, n: nat)
    requires st.Valid() && n <= |st.verified|
    ensures TrustedBytes(st, n) <= Min(n * BLOCK_SIZE, st.size)
    ensures TrustedBytes(st, n) == Min(n * BLOCK_SIZE, st.size) <==> forall b :: 0 <= b < n ==> st.verified[b]
  {
    if n > 0 {
      TrustedBytesBound(st, n - 1);
      BlocksAreReal(n - 1, st.size);
    }
  }

  /** All bytes are trusted exactly on completion. */
  lemma AllTrustedIsComplete(st: Store)
    requires st.Valid() && st.size > 0
    ensures |st.verified| > 0 && TrustedBytes(st, |st.verified|) <= st.size
    ensures TrustedBytes(st, |st.verified|) == st.size <==> st.Complete()
  {
    CountsAreExact(st.size);
    TrustedBytesBound(st, |st.verified|);
  }

  /** Progress is the trusted share of the bytes in basis points, rounded down. */
  lemma ProgressIsTheShare(st: Store)
    requires st.Valid() && st.size > 0
    ensures var trusted := TrustedBytes(st, |st.verified|);
            Progress(st) * st.size <= trusted * 10_000 < (Progress(st) + 1) * st.size
  {
    AllTrustedIsComplete(st);
    var trusted := TrustedBytes(st, |st.verified|);
    NoSaturation(trusted);
    RatioBounds(trusted, st.size);
    SmallCut(Quotient(trusted * 10_000, st.size));
    QuotientBounds(trusted * 10_000, st.size);
  }

  /** For a file with bytes in it, progress reads 10000 exactly on completion. */
  lemma FullProgressIsComplete(st: Store)
    requires st.Valid() && st.size > 0
    ensures Progress(st) <= 10_000
    ensures Progress(st) == 10_000 <==> st.Complete()
  {
    AllTrustedIsComplete(st);
    BpsBounds(TrustedBytes(st, |st.verified|), st.size);
  }

  /** Within the size limit the product does not saturate. */
  lemma BpsBounds(part: nat, whole: nat)
    requires part <= whole <= MAX_SIZE && whole > 0
    ensures Bps(part, whole) <= 10_000
    ensures Bps(part, whole) == 10_000 <==> part == whole
  {
    NoSaturation(part);
    RatioBounds(part, whole);
    SmallCut(Quotient(part * 10_000, whole));
  }

  lemma NoSaturation(part: nat)
    requires part <= MAX_SIZE
    ensures Min(part * 10_000, U64_MAX) == part * 10_000
  {
    assert part <= 0xFFFF_FFFF * 256_000;
  }

  lemma SmallCut(n: nat)
    requires n <= 10_000
    ensures n % 0x1_0000 == n
  {
  }

  lemma RatioBounds(part: nat, whole: nat)
    requires part <= whole && whole > 0
    ensures Quotient(part * 10_000, whole) <= 10_000
    ensures Quotient(part * 10_000, whole) == 10_000 <==> part == whole
  {
    var q := Quotient(part * 10_000, whole);
    QuotientBounds(part * 10_000, whole);
    assert 10_000 * whole < (10_000 + 1) * whole;
    Ordered(q, 10_000 + 1, whole);
    Ordered(q, 10_000, whole);
    Ordered(10_000, q + 1, whole);
  }

  lemma QuotientBounds(a: nat, b: nat)
    requires b > 0
    ensures (a / b) * b <= a < (a / b + 1) * b
  {
    assert a == (a / b) * b + a % b;
    assert (a / b + 1) * b == (a / b) * b + b;
  }

  lemma Ordered(a: nat, b: nat, c: nat)
    requires c > 0
    ensures a * c < b * c <==> a < b
  {
    assert (b - a) * c == b * c - a * c;
    if b - a <= 0 {
      assert (a - b) * c >= 0;
    }
  }

  /** An empty file shows full progress and is never complete. */
  lemma EmptyFileNeverCompletes(md4: Md4, hashes: seq<Digest>, run: seq<Action>)
    requires |hashes| == 0
    ensures var st := RunFrom(md4, hashes, WithFile([], false), run);
            Progress(st) == 10_000 && !st.Complete()
  {
    var st := RunFrom(md4, hashes, WithFile([], false), run);
    assert |st.verified| == BlockCount(0) == 0;
  }
}
