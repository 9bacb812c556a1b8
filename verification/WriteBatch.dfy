/** Writes to one file, and the batches in which the disk engine groups them (disk_engine.cpp). */
module WriteBatch {

  const MAX_BATCH_BYTES := 1048576
  const TWO_32 := 0x1_0000_0000

  /** A write of a non-empty buffer whose size fits 32 bits. */
  datatype Write = Write(offset: nat, data: seq<bv8>)

  predicate Sized(w: Write) {
    0 < |w.data| < TWO_32
  }

  predicate AllSized(q: seq<Write>) {
    forall i :: 0 <= i < |q| ==> Sized(q[i])
  }

  // ---- what writes do to a file ----------------------------------------------------------------------

  /** A write past the end leaves a hole of zeros. */
  function WriteAt(file: seq<bv8>, offset: nat, data: seq<bv8>): (r: seq<bv8>)
    ensures |r| == if offset + |data| > |file| then offset + |data| else |file|
  {
    var padded := if |file| < offset then file + seq(offset - |file|, _ => 0 as bv8) else file;
    padded[..offset] + data + if offset + |data| < |padded| then padded[offset + |data|..] else []
  }

  /** Byte by byte: the data where it was written, the file as it was elsewhere, and zeros in a hole. */
  lemma WriteAtByte(file: seq<bv8>, offset: nat, data: seq<bv8>, j: nat)
    requires j < |WriteAt(file, offset, data)|
    ensures WriteAt(file, offset, data)[j] ==
            if offset <= j < offset + |data| then data[j - offset] else if j < |file| then file[j] else 0
  {}

  /** One write after the other. */
  function WriteAll(file: seq<bv8>, q: seq<Write>): seq<bv8> {
    if q == [] then file
    else var n := |q| - 1; WriteAt(WriteAll(file, q[..n]), q[n].offset, q[n].data)
  }

  function Bytes(q: seq<Write>): seq<bv8> {
    if q == [] then [] else var n := |q| - 1; Bytes(q[..n]) + q[n].data
  }

  predicate Adjacent(q: seq<Write>, i: nat)
    requires 0 < i < |q|
  {
    q[i - 1].offset + |q[i - 1].data| == q[i].offset
  }

  predicate Contiguous(q: seq<Write>) {
    forall i {:trigger Adjacent(q, i)} :: 0 < i < |q| ==> Adjacent(q, i)
  }

  /** Two writes back to back are one write. */
  lemma WriteTwice(file: seq<bv8>, offset: nat, a: seq<bv8>, b: seq<bv8>)
    requires a != []
    ensures WriteAt(WriteAt(file, offset, a), offset + |a|, b) == WriteAt(file, offset, a + b)
  {}

  lemma ContiguousInit(q: seq<Write>)
    requires |q| > 1 && Contiguous(q)
    ensures Contiguous(q[..|q| - 1]) && Adjacent(q, |q| - 1)
  {
    var n := |q| - 1;
    forall i {:trigger Adjacent(q[..n], i)} | 0 < i < |q[..n]| ensures Adjacent(q[..n], i) {
      assert Adjacent(q, i);
    }
  }

  lemma {:induction false} ContiguousEnd(q: seq<Write>)
    requires q != [] && Contiguous(q) && AllSized(q)
    ensures q[0].offset + |Bytes(q)| == q[|q| - 1].offset + |q[|q| - 1].data| && Bytes(q) != []
  {
    if |q| > 1 {
      ContiguousInit(q);
      ContiguousEnd(q[..|q| - 1]);
    }
  }

  /** The concatenated write at the first offset leaves the same file as the member writes in order. */
  lemma {:induction false} BatchIsSequential(file: seq<bv8>, q: seq<Write>)
    requires q != [] && Contiguous(q) && AllSized(q)
    ensures WriteAll(file, q) == WriteAt(file, q[0].offset, Bytes(q))
  {
    var n := |q| - 1;
    if n == 0 {
      assert q[..n] == [] && Bytes(q) == q[0].data;
    } else {
      ContiguousInit(q);
      var p, last := q[..n], q[n].data;
      BatchIsSequential(file, p);
      ContiguousEnd(p);
      calc {
        WriteAll(file, q);
        WriteAt(WriteAt(file, q[0].offset, Bytes(p)), q[0].offset + |Bytes(p)|, last);
        { WriteTwice(file, q[0].offset, Bytes(p), last); }
        WriteAt(file, q[0].offset, Bytes(p) + last);
      }
    }
  }

  // ---- the batch -------------------------------------------------------------------------------------

  /** The first n writes may go to the disk together. */
  ghost predicate IsBatch(q: seq<Write>, n: nat) {
    && 0 < n <= |q| && Contiguous(q[..n])
    && (n == 1 || |Bytes(q[..n])| <= MAX_BATCH_BYTES)
  }

  ghost predicate LongestBatch(q: seq<Write>, n: nat) {
    IsBatch(q, n) && forall m :: n < m <= |q| ==> !IsBatch(q, m)
  }

  /** The sum of two 32-bit numbers, as a 32-bit number. */
  function Add32(a: nat, b: nat): nat {
    if a + b < TWO_32 then a + b else a + b - TWO_32
  }

  /** The loop of unlink_next_workload, with n writes taken. The size is a 32-bit number: the batch condition can
      be met by wrapping, and a size of 0 takes the next write as if it were the first. */
  function Extend(q: seq<Write>, n: nat, sz: nat): (r: (nat, nat))
    requires n <= |q| && (n == 0 ==> sz == 0)
    ensures n <= r.0 <= |q|
    decreases |q| - n
  {
    if n == |q| then (n, sz)
    else if sz == 0 then Extend(q, n + 1, |q[n].data|)
    else if Adjacent(q, n) && Add32(sz, |q[n].data|) <= MAX_BATCH_BYTES then
      Extend(q, n + 1, Add32(sz, |q[n].data|))
    else (n, sz)
  }

  /** unlink_next_workload: how many writes are taken, and the size handed on with them. */
  function NextWorkload(q: seq<Write>): (nat, nat) {
    Extend(q, 0, 0)
  }

  /** The write that follows batch n joins it only because the sum of the sizes wraps. */
  predicate WrapsAt(q: seq<Write>, n: nat)
    requires n <= |q|
  {
    0 < n < |q| && Adjacent(q, n) && |Bytes(q[..n])| + |q[n].data| >= TWO_32
    && |Bytes(q[..n])| + |q[n].data| - TWO_32 <= MAX_BATCH_BYTES
  }

  lemma BytesStep(q: seq<Write>, n: nat)
    requires n < |q|
    ensures |Bytes(q[..n + 1])| == |Bytes(q[..n])| + |q[n].data|
  {
    assert q[..n + 1][..n] == q[..n];
  }

  lemma {:induction false} BytesGrow(q: seq<Write>, n: nat, m: nat)
    requires n <= m <= |q|
    ensures |Bytes(q[..n])| <= |Bytes(q[..m])|
    decreases m - n
  {
    if n < m {
      BytesStep(q, m - 1);
      BytesGrow(q, n, m - 1);
    }
  }

  lemma AdjacentInPrefix(q: seq<Write>, m: nat, i: nat)
    requires 0 < i < m <= |q|
    ensures Adjacent(q[..m], i) == Adjacent(q, i)
  {}

  lemma ContiguousStep(q: seq<Write>, n: nat)
    requires 0 < n < |q|
    ensures Contiguous(q[..n + 1]) <==> Contiguous(q[..n]) && Adjacent(q, n)
  {
    var p, r := q[..n], q[..n + 1];
    AdjacentInPrefix(q, n + 1, n);
    forall i | 0 < i < n ensures Adjacent(p, i) == Adjacent(r, i) {
      AdjacentInPrefix(q, n, i);
      AdjacentInPrefix(q, n + 1, i);
    }
    if Contiguous(r) {
      assert forall i {:trigger Adjacent(p, i)} :: 0 < i < n ==> Adjacent(r, i);
    }
  }

  lemma {:induction false} ContiguousPrefix(q: seq<Write>, n: nat, m: nat)
    requires 0 < n <= m <= |q| && Contiguous(q[..m])
    ensures Contiguous(q[..n])
    decreases m - n
  {
    if n < m {
      ContiguousStep(q, m - 1);
      ContiguousPrefix(q, n, m - 1);
    }
  }

  /** A batch that cannot take the next write cannot be extended at all. */
  lemma StopsAtLongest(q: seq<Write>, n: nat)
    requires IsBatch(q, n)
    requires n < |q| && Adjacent(q, n) ==> |Bytes(q[..n])| + |q[n].data| > MAX_BATCH_BYTES
    ensures LongestBatch(q, n)
  {
    forall m | n < m <= |q| ensures !IsBatch(q, m) {
      if IsBatch(q, m) {
        ContiguousPrefix(q, n + 1, m);
        ContiguousStep(q, n);
        BytesStep(q, n);
        BytesGrow(q, n + 1, m);
      }
    }
  }

  /** The longest batch, found with unbounded sizes. */
  function Grow(q: seq<Write>, n: nat): (r: nat)
    requires 0 < n <= |q|
    ensures n <= r <= |q|
    decreases |q| - n
  {
    if n < |q| && Adjacent(q, n) && |Bytes(q[..n])| + |q[n].data| <= MAX_BATCH_BYTES then Grow(q, n + 1) else n
  }

  lemma {:induction false} GrowIsLongest(q: seq<Write>, n: nat)
    requires IsBatch(q, n)
    ensures LongestBatch(q, Grow(q, n))
    decreases |q| - n
  {
    if n < |q| && Adjacent(q, n) && |Bytes(q[..n])| + |q[n].data| <= MAX_BATCH_BYTES {
      BytesStep(q, n);
      ContiguousStep(q, n);
      GrowIsLongest(q, n + 1);
    } else {
      StopsAtLongest(q, n);
    }
  }

  /** At the end of the longest batch the loop stops, unless the size wraps. */
  lemma ExtendStops(q: seq<Write>, n: nat, sz: nat)
    requires AllSized(q) && 0 < n <= |q| && sz == |Bytes(q[..n])| > 0
    requires n < |q| && Adjacent(q, n) ==> sz + |q[n].data| > MAX_BATCH_BYTES
    ensures Extend(q, n, sz) == (n, sz) <==> !WrapsAt(q, n)
  {}

  lemma {:induction false} ExtendAgrees(q: seq<Write>, n: nat, sz: nat)
    requires AllSized(q) && IsBatch(q, n) && sz == |Bytes(q[..n])| > 0
    ensures var k := Grow(q, n);
            Extend(q, n, sz) == (k, |Bytes(q[..k])|) <==> !WrapsAt(q, k)
    decreases |q| - n
  {
    if n < |q| && Adjacent(q, n) && sz + |q[n].data| <= MAX_BATCH_BYTES {
      BytesStep(q, n);
      ContiguousStep(q, n);
      ExtendAgrees(q, n + 1, sz + |q[n].data|);
    } else {
      ExtendStops(q, n, sz);
    }
  }

  lemma FirstBytes(q: seq<Write>)
    requires q != []
    ensures Bytes(q[..1]) == q[0].data
  {}

  /** The workload taken from a queue is its longest contiguous prefix within the bound (a first write over the
      bound goes alone), with its true size, exactly when the write behind that prefix does not make the
      32-bit size wrap round to a small number. */
  lemma WorkloadIsLongest(q: seq<Write>)
    requires q != [] && AllSized(q)
    ensures var k := Grow(q, 1);
            LongestBatch(q, k) && (NextWorkload(q) == (k, |Bytes(q[..k])|) <==> !WrapsAt(q, k))
  {
    FirstBytes(q);
    GrowIsLongest(q, 1);
    ExtendAgrees(q, 1, |q[0].data|);
  }

  /** Where it fails: behind 2^32 - 1 bytes one more byte is taken along, and the size handed on is 0. */
  lemma WrapTakesBoth(big: seq<bv8>, small: seq<bv8>)
    requires |big| == TWO_32 - 1 && |small| == 1
    ensures var q := [Write(0, big), Write(|big|, small)];
            AllSized(q) && LongestBatch(q, 1) && WrapsAt(q, 1) && NextWorkload(q) == (2, 0)
  {
    var q := [Write(0, big), Write(|big|, small)];
    FirstBytes(q);
    StopsAtLongest(q, 1);
    assert Extend(q, 1, |big|) == Extend(q, 2, 0);
  }

  /** Buffers below 2 GB cannot wrap. */
  lemma SmallBuffersDoNotWrap(q: seq<Write>, k: nat)
    requires LongestBatch(q, k) && forall i :: 0 <= i < |q| ==> |q[i].data| < TWO_32 / 2
    ensures !WrapsAt(q, k)
  {
    FirstBytes(q);
  }

  /** A batch never has another write of the same size as the whole: process_write tells the two apart. */
  lemma BatchIsBigger(q: seq<Write>, n: nat)
    requires AllSized(q) && 1 < n <= |q|
    ensures |Bytes(q[..n])| > |q[0].data|
  {
    FirstBytes(q);
    BytesStep(q, 1);
    BytesGrow(q, 2, n);
  }
}
