/** Runs of a file's write queue: writes are submitted at any time, one workload is on the disk at a time, and
    its completion takes the next one. */
module WriteQueue {
  import opened WriteBatch

  /** `sz` is the size that goes with the running workload. */
  datatype State = State(file: seq<bv8>, running: seq<Write>, sz: nat, queue: seq<Write>)

  datatype Event = Submit(w: Write) | Complete

  predicate Small(w: Write) {
    0 < |w.data| < TWO_32 / 2
  }

  function Take(s: State): State {
    var (n, sz) := NextWorkload(s.queue);
    s.(running := s.queue[..n], sz := sz, queue := s.queue[n..])
  }

  /** What process_write hands to the disk: the first buffer if it has the whole size, else all of them. */
  function Submitted(running: seq<Write>, sz: nat): seq<bv8>
    requires running != []
  {
    if |running[0].data| == sz then running[0].data else Bytes(running)
  }

  predicate Enabled(s: State, e: Event) {
    match e
    case Submit(w) => Small(w)
    case Complete => s.running != []
  }

  function Apply(s: State, e: Event): State
    requires Enabled(s, e)
  {
    match e
    case Submit(w) =>
      var t := s.(queue := s.queue + [w]);
      if s.running != [] then t else Take(t)
    case Complete =>
      var t := s.(file := WriteAt(s.file, s.running[0].offset, Submitted(s.running, s.sz)), running := []);
      if t.queue == [] then t else Take(t)
  }

  ghost predicate Runs(s: State, es: seq<Event>, t: State)
    decreases |es|
  {
    if es == [] then s == t else Enabled(s, es[0]) && Runs(Apply(s, es[0]), es[1..], t)
  }

  function Writes(es: seq<Event>): seq<Write> {
    if es == [] then []
    else (if es[0].Submit? then [es[0].w] else []) + Writes(es[1..])
  }

  // ---- the invariant ---------------------------------------------------------------------------------

  ghost predicate AllSmall(q: seq<Write>) {
    forall i :: 0 <= i < |q| ==> Small(q[i])
  }

  ghost predicate Inv(s: State) {
    && AllSmall(s.running) && AllSmall(s.queue)
    && (s.running == [] ==> s.queue == [])
    && (s.running != [] ==> Contiguous(s.running) && s.sz == |Bytes(s.running)|)
  }

  /** The file once everything outstanding is on the disk. */
  function Outcome(s: State): seq<bv8> {
    WriteAll(s.file, s.running + s.queue)
  }

  lemma {:induction false} WriteAllAppend(file: seq<bv8>, a: seq<Write>, b: seq<Write>)
    ensures WriteAll(file, a + b) == WriteAll(WriteAll(file, a), b)
  {
    if b == [] {
      assert a + b == a;
    } else {
      var n := |b| - 1;
      WriteAllAppend(file, a, b[..n]);
      assert (a + b)[..|a| + n] == a + b[..n];
    }
  }

  lemma TakeKeepsInv(s: State)
    requires s.running == [] && s.queue != [] && AllSmall(s.queue)
    ensures Inv(Take(s)) && Take(s).running != [] && Outcome(Take(s)) == WriteAll(s.file, s.queue)
  {
    var q, k := s.queue, Grow(s.queue, 1);
    WorkloadIsLongest(q);
    SmallBuffersDoNotWrap(q, k);
    assert q[..k] + q[k..] == q;
  }

  lemma CompleteKeepsInv(s: State)
    requires Inv(s) && s.running != []
    ensures Inv(Apply(s, Complete)) && Outcome(Apply(s, Complete)) == Outcome(s)
  {
    var r := s.running;
    assert AllSized(r);
    assert Submitted(r, s.sz) == Bytes(r) by {
      assert r[..|r|] == r;
      FirstBytes(r);
      if |r| > 1 { BatchIsBigger(r, |r|); } else { assert r[..1] == r; }
    }
    BatchIsSequential(s.file, r);
    WriteAllAppend(s.file, r, s.queue);
    var t := s.(file := WriteAll(s.file, r), running := []);
    if t.queue == [] {
      assert t.running + t.queue == [];
    } else {
      TakeKeepsInv(t);
    }
  }

  lemma SubmitKeepsInv(s: State, w: Write)
    requires Inv(s) && Small(w)
    ensures Inv(Apply(s, Submit(w))) && Outcome(Apply(s, Submit(w))) == WriteAll(Outcome(s), [w])
  {
    var t := s.(queue := s.queue + [w]);
    assert s.running + t.queue == s.running + s.queue + [w];
    WriteAllAppend(s.file, s.running + s.queue, [w]);
    if s.running == [] {
      TakeKeepsInv(t);
      assert s.running + t.queue == t.queue;
    }
  }

  lemma {:induction false} RunKeepsOutcome(s: State, es: seq<Event>, t: State)
    requires Inv(s) && Runs(s, es, t)
    ensures Inv(t) && Outcome(t) == WriteAll(Outcome(s), Writes(es))
    decreases |es|
  {
    if es != [] {
      var u := Apply(s, es[0]);
      if es[0].Submit? { SubmitKeepsInv(s, es[0].w); } else { CompleteKeepsInv(s); }
      RunKeepsOutcome(u, es[1..], t);
      var first := if es[0].Submit? then [es[0].w] else [];
      WriteAllAppend(Outcome(s), first, Writes(es[1..]));
    }
  }

  /** Whatever the batching, an idle queue leaves the file that the submitted writes give one by one. */
  lemma BatchingIsInvisible(file: seq<bv8>, es: seq<Event>, t: State)
    requires Runs(State(file, [], 0, []), es, t)
    ensures t.running == [] ==> t.file == WriteAll(file, Writes(es))
  {
    RunKeepsOutcome(State(file, [], 0, []), es, t);
    assert t.running == [] ==> t.running + t.queue == [];
  }
}
