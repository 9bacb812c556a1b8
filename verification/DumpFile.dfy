/** The dump file of the meta server's state (dump_file.h): blocks with a header of length and checksum, where
    each checksum continues the one before. The checksum may be any function. */
module DumpFile {

  type Byte = x: int | 0 <= x < 256
  type U32 = x: int | 0 <= x < 0x1_0000_0000
  type Checksum = (seq<Byte>, U32) -> U32

  const HEADER := 8

  // ---- the header ------------------------------------------------------------------------------------

  function Le32(n: U32): (bs: seq<Byte>)
    ensures |bs| == 4
  {
    [n % 256, n / 256 % 256, n / 65536 % 256, n / 16777216]
  }

  function FromLe32(bs: seq<Byte>): (n: U32)
    requires |bs| == 4
  {
    bs[0] as int + bs[1] as int * 256 + bs[2] as int * 65536 + bs[3] as int * 16777216
  }

  lemma Le32RoundTrip(n: U32)
    ensures FromLe32(Le32(n)) == n
  {
    assert n / 65536 == n / 256 / 256 && n / 16777216 == n / 256 / 256 / 256;
  }

  lemma LowByte(low: Byte, high: nat)
    ensures (low + 256 * high) % 256 == low && (low + 256 * high) / 256 == high
  {}

  lemma Le32Inverse(bs: seq<Byte>)
    requires |bs| == 4
    ensures Le32(FromLe32(bs)) == bs
  {
    var n := FromLe32(bs);
    var high2: int := bs[2] as int + 256 * bs[3] as int;
    var high1: int := bs[1] as int + 256 * high2;
    LowByte(bs[0], high1);
    LowByte(bs[1], high2);
    LowByte(bs[2], bs[3]);
    assert n == bs[0] as int + 256 * high1;
    assert n / 65536 == n / 256 / 256 && n / 16777216 == n / 256 / 256 / 256;
  }

  // ---- what a file holds -----------------------------------------------------------------------------

  predicate ValidBlocks(blocks: seq<seq<Byte>>) {
    forall i :: 0 <= i < |blocks| ==> |blocks[i]| < 0x1_0000_0000
  }

  function EncodeBlock(check: Checksum, crc: U32, data: seq<Byte>): (bs: seq<Byte>)
    requires |data| < 0x1_0000_0000
    ensures |bs| == HEADER + |data|
  {
    Le32(|data|) + Le32(check(data, crc)) + data
  }

  function Encode(check: Checksum, crc: U32, blocks: seq<seq<Byte>>): seq<Byte>
    requires ValidBlocks(blocks)
    decreases |blocks|
  {
    if blocks == [] then []
    else EncodeBlock(check, crc, blocks[0]) + Encode(check, check(blocks[0], crc), blocks[1..])
  }

  /** The checksum after all blocks. */
  function Chained(check: Checksum, crc: U32, blocks: seq<seq<Byte>>): U32
    decreases |blocks|
  {
    if blocks == [] then crc else Chained(check, check(blocks[0], crc), blocks[1..])
  }

  /** The size of a file with these blocks. */
  function Length(blocks: seq<seq<Byte>>): nat {
    if blocks == [] then 0 else HEADER + |blocks[0]| + Length(blocks[1..])
  }

  // ---- reading ---------------------------------------------------------------------------------------

  /** read_next_buffer returns 1 with a block, 0 at the end of the file, or -1. */
  datatype Outcome = Block(data: seq<Byte>) | End | Bad

  /** Reading a block off the front of `rest`. A header cut short counts as the end of the file. */
  function ReadBlock(check: Checksum, crc: U32, rest: seq<Byte>): (r: Outcome)
    ensures r.Block? ==> HEADER + |r.data| <= |rest|
  {
    if |rest| < HEADER then End
    else
      var length, stored := FromLe32(rest[..4]), FromLe32(rest[4..8]);
      if |rest| < HEADER + length then Bad
      else
        var data := rest[HEADER..HEADER + length];
        if check(data, crc) != stored then Bad else Block(data)
  }

  /** The blocks read until the first 0 or -1, which outcome that was, and the checksum then. */
  function ReadAll(check: Checksum, crc: U32, rest: seq<Byte>): (seq<seq<Byte>>, Outcome, U32)
    decreases |rest|
  {
    match ReadBlock(check, crc, rest)
    case Block(data) =>
      var (blocks, last, end) := ReadAll(check, check(data, crc), rest[HEADER + |data|..]);
      ([data] + blocks, last, end)
    case other => ([], other, crc)
  }

  // ---- laws ------------------------------------------------------------------------------------------

  lemma ReadWhatWasWritten(check: Checksum, crc: U32, data: seq<Byte>, more: seq<Byte>)
    requires |data| < 0x1_0000_0000
    ensures ReadBlock(check, crc, EncodeBlock(check, crc, data) + more) == Block(data)
    ensures (EncodeBlock(check, crc, data) + more)[HEADER + |data|..] == more
  {
    var rest := EncodeBlock(check, crc, data) + more;
    assert rest[..4] == Le32(|data|) && rest[4..8] == Le32(check(data, crc));
    assert rest[HEADER..HEADER + |data|] == data;
    Le32RoundTrip(|data|);
    Le32RoundTrip(check(data, crc));
  }

  /** A block is read exactly when the bytes start with its encoding, its checksum included. */
  lemma ReadBlockIsExact(check: Checksum, crc: U32, rest: seq<Byte>, data: seq<Byte>)
    ensures ReadBlock(check, crc, rest) == Block(data) <==>
            |data| < 0x1_0000_0000 && EncodeBlock(check, crc, data) <= rest
  {
    if |data| < 0x1_0000_0000 && EncodeBlock(check, crc, data) <= rest {
      var more := rest[HEADER + |data|..];
      assert rest == EncodeBlock(check, crc, data) + more;
      ReadWhatWasWritten(check, crc, data, more);
    }
    if ReadBlock(check, crc, rest) == Block(data) {
      Le32Inverse(rest[..4]);
      Le32Inverse(rest[4..8]);
      assert rest[..4] == Le32(|data|) && rest[4..8] == Le32(check(data, crc));
      assert rest[..HEADER + |data|] == rest[..4] + rest[4..8] + rest[HEADER..HEADER + |data|];
    }
  }

  lemma ReadBlockThenRest(check: Checksum, crc: U32, data: seq<Byte>, more: seq<Byte>)
    requires |data| < 0x1_0000_0000
    ensures var (blocks, last, end) := ReadAll(check, check(data, crc), more);
            ReadAll(check, crc, EncodeBlock(check, crc, data) + more) == ([data] + blocks, last, end)
  {
    ReadWhatWasWritten(check, crc, data, more);
  }

  /** A block cut short is an error, unless even its header is cut. */
  lemma ReadTruncated(check: Checksum, crc: U32, data: seq<Byte>, k: nat)
    requires |data| < 0x1_0000_0000 && k < HEADER + |data|
    ensures ReadBlock(check, crc, EncodeBlock(check, crc, data)[..k]) == if k < HEADER then End else Bad
  {
    if k >= HEADER {
      var rest := EncodeBlock(check, crc, data)[..k];
      assert rest[..4] == Le32(|data|);
      Le32RoundTrip(|data|);
    }
  }

  lemma {:induction false} EncodeLength(check: Checksum, crc: U32, blocks: seq<seq<Byte>>)
    requires ValidBlocks(blocks)
    ensures |Encode(check, crc, blocks)| == Length(blocks)
    decreases |blocks|
  {
    if blocks != [] { EncodeLength(check, check(blocks[0], crc), blocks[1..]); }
  }

  /** How many blocks lie completely within the first k bytes. */
  function Complete(blocks: seq<seq<Byte>>, k: nat): (j: nat)
    ensures j <= |blocks|
  {
    if blocks == [] || k < HEADER + |blocks[0]| then 0
    else 1 + Complete(blocks[1..], k - HEADER - |blocks[0]|)
  }

  lemma {:induction false} CompleteIsLongest(blocks: seq<seq<Byte>>, k: nat)
    ensures var j := Complete(blocks, k);
            && Length(blocks[..j]) <= k
            && (j < |blocks| ==> k < Length(blocks[..j + 1]))
  {
    if blocks != [] {
      var j := Complete(blocks, k);
      assert j < |blocks| ==> blocks[..j + 1][0] == blocks[0] && blocks[..j + 1][1..] == blocks[1..][..j];
      if k >= HEADER + |blocks[0]| {
        CompleteIsLongest(blocks[1..], k - HEADER - |blocks[0]|);
        assert blocks[..j][0] == blocks[0] && blocks[..j][1..] == blocks[1..][..j - 1];
      }
    }
  }

  /** What reading the first k bytes of a written file should give: the blocks complete in them, with the
      writer's checksum, and then 0 if less than a header is left over, else -1. */
  function Expected(check: Checksum, crc: U32, blocks: seq<seq<Byte>>, k: nat): (seq<seq<Byte>>, Outcome, U32) {
    var read := blocks[..Complete(blocks, k)];
    (read, if k - Length(read) < HEADER then End else Bad, Chained(check, crc, read))
  }

  lemma ExpectedStep(check: Checksum, crc: U32, blocks: seq<seq<Byte>>, k: nat)
    requires blocks != [] && k >= HEADER + |blocks[0]|
    ensures var (read, last, end) := Expected(check, check(blocks[0], crc), blocks[1..], k - HEADER - |blocks[0]|);
            Expected(check, crc, blocks, k) == ([blocks[0]] + read, last, end)
  {
    var j := Complete(blocks, k);
    assert blocks[..j] == [blocks[0]] + blocks[1..][..j - 1];
    assert blocks[..j][0] == blocks[0] && blocks[..j][1..] == blocks[1..][..j - 1];
  }

  lemma {:induction false} ReadTruncation(check: Checksum, crc: U32, blocks: seq<seq<Byte>>, k: nat)
    requires ValidBlocks(blocks) && k <= |Encode(check, crc, blocks)|
    ensures ReadAll(check, crc, Encode(check, crc, blocks)[..k]) == Expected(check, crc, blocks, k)
    decreases |blocks|
  {
    if blocks != [] {
      var data, next := blocks[0], check(blocks[0], crc);
      var first, more := EncodeBlock(check, crc, data), Encode(check, next, blocks[1..]);
      if k < HEADER + |data| {
        assert (first + more)[..k] == first[..k];
        ReadTruncated(check, crc, data, k);
      } else {
        var m := k - HEADER - |data|;
        assert (first + more)[..k] == first + more[..m];
        ReadBlockThenRest(check, crc, data, more[..m]);
        ReadTruncation(check, next, blocks[1..], m);
        ExpectedStep(check, crc, blocks, k);
      }
    }
  }

  lemma ReadFirstThen(check: Checksum, crc: U32, blocks: seq<seq<Byte>>, more: seq<Byte>)
    requires ValidBlocks(blocks) && blocks != []
    ensures var next := check(blocks[0], crc);
            var (read, last, end) := ReadAll(check, next, Encode(check, next, blocks[1..]) + more);
            ReadAll(check, crc, Encode(check, crc, blocks) + more) == ([blocks[0]] + read, last, end)
  {
    var first, rest := EncodeBlock(check, crc, blocks[0]), Encode(check, check(blocks[0], crc), blocks[1..]);
    assert first + rest + more == first + (rest + more);
    ReadBlockThenRest(check, crc, blocks[0], rest + more);
  }

  lemma HeadFirst(blocks: seq<seq<Byte>>, read: seq<seq<Byte>>)
    requires blocks != []
    ensures [blocks[0]] + (blocks[1..] + read) == blocks + read
  {}

  lemma {:induction false} ReadOnAfter(check: Checksum, crc: U32, blocks: seq<seq<Byte>>, more: seq<Byte>)
    requires ValidBlocks(blocks)
    ensures var (read, last, end) := ReadAll(check, Chained(check, crc, blocks), more);
            ReadAll(check, crc, Encode(check, crc, blocks) + more) == (blocks + read, last, end)
    decreases |blocks|
  {
    var read := ReadAll(check, Chained(check, crc, blocks), more).0;
    if blocks == [] {
      assert Encode(check, crc, blocks) + more == more && blocks + read == read;
    } else {
      ReadFirstThen(check, crc, blocks, more);
      ReadOnAfter(check, check(blocks[0], crc), blocks[1..], more);
      HeadFirst(blocks, read);
    }
  }

  /** Damage within a block's data is found: if bytes of the same number but with another checksum stand there, the
      blocks before it are read, and then -1, whatever follows. */
  lemma DamageIsFound(check: Checksum, blocks: seq<seq<Byte>>, data: seq<Byte>, damaged: seq<Byte>, more: seq<Byte>)
    requires ValidBlocks(blocks) && |damaged| == |data| < 0x1_0000_0000
    requires var crc := Chained(check, 0, blocks); check(damaged, crc) != check(data, crc)
    ensures var crc := Chained(check, 0, blocks);
            var file := Encode(check, 0, blocks) + (EncodeBlock(check, crc, data)[..HEADER] + damaged + more);
            ReadAll(check, 0, file) == (blocks, Bad, crc)
  {
    var crc := Chained(check, 0, blocks);
    var rest := EncodeBlock(check, crc, data)[..HEADER] + damaged + more;
    ReadOnAfter(check, 0, blocks, rest);
    assert rest[..4] == Le32(|data|) && rest[4..8] == Le32(check(data, crc));
    assert rest[HEADER..HEADER + |data|] == damaged;
    Le32RoundTrip(|data|);
    Le32RoundTrip(check(data, crc));
    assert blocks + [] == blocks;
  }

  lemma {:induction false} AllComplete(blocks: seq<seq<Byte>>)
    ensures Complete(blocks, Length(blocks)) == |blocks|
  {
    if blocks != [] { AllComplete(blocks[1..]); }
  }

  /** Reading a written file gives back exactly its blocks, and then 0. */
  lemma RoundTrip(check: Checksum, blocks: seq<seq<Byte>>)
    requires ValidBlocks(blocks)
    ensures ReadAll(check, 0, Encode(check, 0, blocks)) == (blocks, End, Chained(check, 0, blocks))
  {
    var file := Encode(check, 0, blocks);
    EncodeLength(check, 0, blocks);
    AllComplete(blocks);
    ReadTruncation(check, 0, blocks, |file|);
    assert file[..|file|] == file && blocks[..|blocks|] == blocks;
  }

  lemma {:induction false} ChainedSnoc(check: Checksum, crc: U32, blocks: seq<seq<Byte>>, data: seq<Byte>)
    requires ValidBlocks(blocks) && |data| < 0x1_0000_0000
    ensures Chained(check, crc, blocks + [data]) == check(data, Chained(check, crc, blocks))
    ensures Encode(check, crc, blocks + [data]) ==
            Encode(check, crc, blocks) + EncodeBlock(check, Chained(check, crc, blocks), data)
    decreases |blocks|
  {
    var all := blocks + [data];
    if blocks == [] {
      assert all[0] == data && all[1..] == [];
    } else {
      var next := check(blocks[0], crc);
      ChainedSnoc(check, next, blocks[1..], data);
      assert all[0] == blocks[0] && all[1..] == blocks[1..] + [data];
      var first, rest := EncodeBlock(check, crc, blocks[0]), Encode(check, next, blocks[1..]);
      var last := EncodeBlock(check, Chained(check, crc, blocks), data);
      assert first + (rest + last) == first + rest + last;
    }
  }

  // ---- the file object -------------------------------------------------------------------------------

  /** One call of fread or fwrite: interrupted after n bytes, or failed. Calls beyond a given list of these run
      to their end. */
  datatype Call = Part(n: nat) | Fail

  function Min(a: nat, b: nat): nat {
    if a <= b then a else b
  }

  /** The write loop of append_buffer: how much of the data reaches the file. */
  method WriteData(data: seq<Byte>, calls: seq<Call>) returns (ok: bool, len: nat)
    ensures len <= |data| && (ok ==> len == |data|)
    ensures Fail !in calls ==> ok
  {
    len := 0;
    var i := 0;
    while len < |data|
      invariant len <= |data| && 0 <= i <= |calls| + 1 && (i > |calls| ==> len == |data|)
      decreases |calls| + 1 - i
    {
      var call := if i < |calls| then calls[i] else Part(|data|);
      if call.Fail? { return false, len; }
      len := len + Min(call.n, |data| - len);
      i := i + 1;
    }
    ok := true;
  }

  /** The read loop of read_next_buffer, over what is left of the file. */
  method ReadData(rest: seq<Byte>, length: nat, calls: seq<Call>) returns (ok: bool, data: seq<Byte>)
    ensures ok ==> length <= |rest| && data == rest[..length]
    ensures Fail !in calls ==> ok == (length <= |rest|)
  {
    data := [];
    var i := 0;
    while |data| < length
      invariant |data| <= length && |data| <= |rest| && data == rest[..|data|]
      invariant 0 <= i <= |calls| + 1 && (i > |calls| ==> |data| == length)
      decreases |calls| + 1 - i
    {
      var len, call := |data|, if i < |calls| then calls[i] else Part(length);
      if call.Fail? { return false, []; }
      var cnt := Min(call.n, Min(length - len, |rest| - len));
      if len + cnt < length && len + cnt == |rest| && call.n > cnt {
        return false, [];      // end of file
      }
      data := data + rest[len..len + cnt];
      i := i + 1;
    }
    ok := true;
  }

  class DumpFile {
    const check: Checksum
    var content: seq<Byte>
    var pos: nat
    var crc: U32

    constructor (check: Checksum, content: seq<Byte>)
      ensures this.check == check && this.content == content && pos == 0 && crc == 0
    {
      this.check, this.content, pos, crc := check, content, 0, 0;
    }

    /** append_buffer; `header` bytes of the header reach the file. A failure leaves a truncated block. */
    method AppendBuffer(data: seq<Byte>, header: nat, calls: seq<Call>) returns (r: int)
      requires |data| < 0x1_0000_0000
      modifies `content, `crc
      ensures r == 0 || r == -1
      ensures header >= HEADER && Fail !in calls ==> r == 0
      ensures crc == check(data, old(crc))
      ensures old(content) <= content && content[|old(content)|..] <= EncodeBlock(check, old(crc), data)
      ensures r == 0 ==> content == old(content) + EncodeBlock(check, old(crc), data)
    {
      var head := Le32(|data|) + Le32(check(data, crc));
      crc := check(data, crc);
      if header < HEADER {
        content := content + head[..header];
        return -1;
      }
      var ok, len := WriteData(data, calls);
      content := content + (head + data[..len]);
      r := if ok then 0 else -1;
    }

    /** read_next_buffer; `header` tells whether the read of the header meets no error other than the file's end. */
    method ReadNextBuffer(header: bool, calls: seq<Call>) returns (r: int, output: seq<Byte>)
      requires pos <= |content|
      modifies `pos, `crc
      ensures pos <= |content| && -1 <= r <= 1
      ensures !header ==> r == -1
      ensures r == 1 ==>
                && ReadBlock(check, old(crc), content[old(pos)..]) == Block(output)
                && pos == old(pos) + HEADER + |output| && crc == check(output, old(crc))
      ensures header ==> (r == 0 <==> ReadBlock(check, old(crc), content[old(pos)..]) == End)
      ensures r != 1 && header ==> r == 0 || Fail in calls || ReadBlock(check, old(crc), content[old(pos)..]) == Bad
      ensures r == 0 ==> crc == old(crc)
    {
      output := [];
      if !header { return -1, []; }
      var rest := content[pos..];
      if |rest| < HEADER {
        pos := |content|;
        return 0, [];
      }
      var length, stored := FromLe32(rest[..4]), FromLe32(rest[4..8]);
      var ok, data := ReadData(rest[HEADER..], length, calls);
      if !ok {
        pos := |content|;
        return -1, [];
      }
      assert data == rest[HEADER..HEADER + length];
      pos := pos + HEADER + length;
      crc := check(data, crc);
      if crc != stored { return -1, []; }
      return 1, data;
    }
  }

  // ---- whole files -----------------------------------------------------------------------------------

  /** How the calls for one block go: whether the header is written or read, and the calls for its data. */
  datatype Pattern = Pattern(header: bool, calls: seq<Call>)

  predicate Smooth(patterns: seq<Pattern>) {
    forall i :: 0 <= i < |patterns| ==> patterns[i].header && Fail !in patterns[i].calls
  }

  function PatternAt(patterns: seq<Pattern>, i: nat): Pattern {
    if i < |patterns| then patterns[i] else Pattern(true, [])
  }

  /** The dump of the server state: block after block, whatever the results. */
  method WriteBlocks(f: DumpFile, blocks: seq<seq<Byte>>, patterns: seq<Pattern>)
    requires ValidBlocks(blocks) && f.content == [] && f.crc == 0
    modifies f`content, f`crc
    ensures f.crc == Chained(f.check, 0, blocks)
    ensures Smooth(patterns) ==> f.content == Encode(f.check, 0, blocks)
  {
    for i := 0 to |blocks|
      invariant f.crc == Chained(f.check, 0, blocks[..i])
      invariant Smooth(patterns) ==> f.content == Encode(f.check, 0, blocks[..i])
    {
      assert blocks[..i + 1] == blocks[..i] + [blocks[i]];
      ChainedSnoc(f.check, 0, blocks[..i], blocks[i]);
      var p := PatternAt(patterns, i);
      var _ := f.AppendBuffer(blocks[i], if p.header then HEADER else 0, p.calls);
    }
    assert blocks[..|blocks|] == blocks;
  }

  /** Reading on from `rest` completes `read` to the whole result. */
  ghost predicate Continues(check: Checksum, whole: (seq<seq<Byte>>, Outcome, U32), read: seq<seq<Byte>>,
                            crc: U32, rest: seq<Byte>) {
    var left := ReadAll(check, crc, rest);
    whole.0 == read + left.0 && whole.1 == left.1
  }

  lemma ContinuesAfterBlock(check: Checksum, whole: (seq<seq<Byte>>, Outcome, U32), read: seq<seq<Byte>>,
                            crc: U32, rest: seq<Byte>, data: seq<Byte>)
    requires Continues(check, whole, read, crc, rest) && ReadBlock(check, crc, rest) == Block(data)
    ensures Continues(check, whole, read + [data], check(data, crc), rest[HEADER + |data|..])
  {
    var left := ReadAll(check, check(data, crc), rest[HEADER + |data|..]);
    assert read + ([data] + left.0) == read + [data] + left.0;
  }

  lemma ContinuesToEnd(check: Checksum, whole: (seq<seq<Byte>>, Outcome, U32), read: seq<seq<Byte>>,
                       crc: U32, rest: seq<Byte>)
    requires Continues(check, whole, read, crc, rest)
    ensures read <= whole.0
    ensures !ReadBlock(check, crc, rest).Block? ==> whole.0 == read && whole.1 == ReadBlock(check, crc, rest)
  {}

  /** Reads on from `read`, by one block or to the end. */
  method ReadOne(f: DumpFile, p: Pattern, read: seq<seq<Byte>>, ghost whole: (seq<seq<Byte>>, Outcome, U32))
    returns (blocks: seq<seq<Byte>>, r: int)
    requires f.pos <= |f.content| && Continues(f.check, whole, read, f.crc, f.content[f.pos..])
    modifies f`pos, f`crc
    ensures f.pos <= |f.content| && -1 <= r <= 1
    ensures r == 1 ==> f.pos > old(f.pos) && Continues(f.check, whole, blocks, f.crc, f.content[f.pos..])
    ensures r != 1 ==> blocks == read && read <= whole.0
    ensures r != 1 && p.header && Fail !in p.calls ==> blocks == whole.0 && (r == 0 <==> whole.1 == End)
  {
    ghost var crc, rest := f.crc, f.content[f.pos..];
    ContinuesToEnd(f.check, whole, read, crc, rest);
    var output;
    r, output := f.ReadNextBuffer(p.header, p.calls);
    blocks := read;
    if r == 1 {
      ContinuesAfterBlock(f.check, whole, read, crc, rest, output);
      assert rest[HEADER + |output|..] == f.content[f.pos..];
      blocks := read + [output];
    }
  }

  /** Reading a dump: block after block until there is no more. */
  method ReadBlocks(f: DumpFile, patterns: seq<Pattern>) returns (blocks: seq<seq<Byte>>, r: int)
    requires f.pos == 0 && f.crc == 0
    modifies f`pos, f`crc
    ensures r == 0 || r == -1
    ensures var whole := ReadAll(f.check, 0, f.content);
            blocks <= whole.0 && (Smooth(patterns) ==> blocks == whole.0 && (r == 0 <==> whole.1 == End))
  {
    blocks, r := [], 1;
    var i := 0;
    ghost var whole := ReadAll(f.check, 0, f.content);
    assert f.content[0..] == f.content;
    while r == 1
      invariant f.pos <= |f.content| && -1 <= r <= 1 && i >= 0
      invariant r == 1 ==> Continues(f.check, whole, blocks, f.crc, f.content[f.pos..])
      invariant r != 1 ==> blocks <= whole.0
      invariant r != 1 && Smooth(patterns) ==> blocks == whole.0 && (r == 0 <==> whole.1 == End)
      decreases r == 1, |f.content| - f.pos
    {
      blocks, r := ReadOne(f, PatternAt(patterns, i), blocks, whole);
      i := i + 1;
    }
  }

  /** For every list of blocks and every pattern of partial writes and reads: what is read back is what was written. */
  method WriteThenRead(check: Checksum, blocks: seq<seq<Byte>>, writings: seq<Pattern>, readings: seq<Pattern>)
    returns (again: seq<seq<Byte>>, r: int)
    requires ValidBlocks(blocks) && Smooth(writings) && Smooth(readings)
    ensures again == blocks && r == 0
  {
    var f := new DumpFile(check, []);
    WriteBlocks(f, blocks, writings);
    var g := new DumpFile(check, f.content);
    again, r := ReadBlocks(g, readings);
    RoundTrip(check, blocks);
  }

  /** A file cut off anywhere, also by a failed write of its last block, still gives a prefix of the blocks. */
  method WriteCutRead(check: Checksum, blocks: seq<seq<Byte>>, writings: seq<Pattern>, k: nat, readings: seq<Pattern>)
    returns (again: seq<seq<Byte>>, r: int)
    requires ValidBlocks(blocks) && Smooth(writings) && Smooth(readings) && k <= Length(blocks)
    ensures again == blocks[..Complete(blocks, k)]
    ensures r == if k - Length(again) < HEADER then 0 else -1
  {
    var f := new DumpFile(check, []);
    WriteBlocks(f, blocks, writings);
    EncodeLength(check, 0, blocks);
    var g := new DumpFile(check, f.content[..k]);
    again, r := ReadBlocks(g, readings);
    ReadTruncation(check, 0, blocks, k);
  }
}
