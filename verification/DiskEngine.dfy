/** The disk engine's objects: tasks linked through their next pointers, the queue that unlinks workloads from
    them, the completion of a workload, and the merging of buffers (disk_engine.cpp, aio_task.cpp). */
module DiskEngine {
  import opened Options
  import opened WriteBatch
  import WriteQueue

  datatype Error = ERR_OK | ERR_FAILED

  datatype Result = Result(err: Error, size: nat)

  class AioTask {
    const offset: nat
    const data: seq<bv8>
    var next: AioTask?
    var result: Option<Result>   // what the task was enqueued with

    constructor (w: Write)
      ensures Op() == w && next == null && result == None
    {
      offset, data, next, result := w.offset, w.data, null, None;
    }

    function Op(): Write {
      Write(offset, data)
    }
  }

  /** The tasks are chained in this order and the last one ends the chain. */
  ghost predicate Chain(tasks: seq<AioTask>)
    reads tasks
  {
    Distinct(tasks) && forall i {:trigger tasks[i].next} :: 0 <= i < |tasks| ==> tasks[i].next == At(tasks, i + 1)
  }

  ghost predicate Distinct(tasks: seq<AioTask>) {
    forall i, j :: 0 <= i < j < |tasks| ==> tasks[i] != tasks[j]
  }

  function At(tasks: seq<AioTask>, i: nat): AioTask? {
    if i < |tasks| then tasks[i] else null
  }

  function Ops(tasks: seq<AioTask>): (q: seq<Write>)
    ensures |q| == |tasks| && forall i :: 0 <= i < |q| ==> q[i] == tasks[i].Op()
  {
    seq(|tasks|, i requires 0 <= i < |tasks| => tasks[i].Op())
  }

  /** Ends the chain after its n-th task. */
  method Cut(task: AioTask, ghost tasks: seq<AioTask>, ghost n: nat)
    requires Chain(tasks) && 0 < n <= |tasks| && task == tasks[n - 1]
    modifies task`next
    ensures Chain(tasks[..n]) && Chain(tasks[n..])
  {
    task.next := null;
    forall i | 0 <= i < |tasks[n..]| ensures tasks[n..][i].next == At(tasks[n..], i + 1) {
      assert tasks[n..][i] == tasks[n + i];
    }
    forall i | 0 <= i < n ensures tasks[..n][i].next == At(tasks[..n], i + 1) {
      assert tasks[..n][i] == tasks[i];
    }
  }

  lemma SingleWorkload(task: AioTask)
    ensures NextWorkload(Ops([task])) == (1, |task.data|)
  {
    assert Extend(Ops([task]), 1, |task.data|) == (1, |task.data|);
  }

  class DiskWriteQueue {
    var first: AioTask?
    var last: AioTask?
    var running: nat             // _current_op_count
    ghost var tasks: seq<AioTask>

    ghost predicate Valid()
      reads this, tasks
    {
      && Chain(tasks) && first == At(tasks, 0)
      && last == (if tasks == [] then null else tasks[|tasks| - 1])
      && running <= 1 && (running == 0 ==> tasks == [])
    }

    constructor ()
      ensures Valid() && tasks == [] && running == 0
    {
      first, last, running, tasks := null, null, 0, [];
    }

    /** The loop over the chain: where the workload ends, and its 32-bit size. */
    method FindWorkload() returns (before: AioTask?, current: AioTask?, sz: nat, ghost n: nat)
      requires Valid()
      ensures n <= |tasks| && (tasks != [] ==> n > 0)
      ensures current == At(tasks, n) && before == At(tasks, if n == 0 then 0 else n - 1)
      ensures NextWorkload(Ops(tasks)) == (n, sz)
    {
      sz, n, current, before := 0, 0, first, first;
      var nextOffset := 0;
      ghost var q := Ops(tasks);
      while current != null
        invariant 0 <= n <= |tasks| && current == At(tasks, n) && before == At(tasks, if n == 0 then 0 else n - 1)
        invariant n == 0 ==> sz == 0
        invariant NextWorkload(q) == Extend(q, n, sz)
        invariant n > 0 ==> nextOffset == q[n - 1].offset + |q[n - 1].data|
        decreases |tasks| - n
      {
        assert current == tasks[n] && q[n] == current.Op();
        if sz == 0 {
          sz := |current.data|;
          nextOffset := current.offset + sz;
        } else if nextOffset == current.offset && Add32(sz, |current.data|) <= MAX_BATCH_BYTES {
          sz := Add32(sz, |current.data|);
          nextOffset := nextOffset + |current.data|;
        } else {
          break;
        }
        before := current;
        current := current.next;
        n := n + 1;
      }
    }

    /** Takes the next workload off the front. */
    method UnlinkNextWorkload() returns (head: AioTask?, sz: nat, ghost taken: seq<AioTask>)
      requires Valid()
      modifies `first, `last, `tasks, tasks`next
      ensures Valid() && Chain(taken) && head == At(taken, 0)
      ensures |taken| <= |old(tasks)| && taken == old(tasks)[..|taken|] && tasks == old(tasks)[|taken|..]
      ensures NextWorkload(Ops(old(tasks))) == (|taken|, sz)
    {
      var before, current;
      ghost var n;
      before, current, sz, n := FindWorkload();
      head := first;
      taken := tasks[..n];
      if before != null {
        ghost var rest := tasks[n..];
        Cut(before, tasks, n);
        assert (before == last) == (rest == []);
        first := current;
        if before == last {
          last := null;
        }
        tasks := rest;
        assert Chain(rest);
      }
    }

    method Append(task: AioTask)
      requires Valid() && task !in tasks && task.next == null
      modifies `first, `last, `tasks, tasks`next
      ensures Chain(tasks) && tasks == old(tasks) + [task] && first == At(tasks, 0) && last == task
    {
      if last != null {
        last.next := task;
        last := task;
      } else {
        first, last := task, task;
      }
      tasks := tasks + [task];
    }

    /** add_work: a task joins the queue, and is taken at once when nothing is on the disk. */
    method AddWork(task: AioTask) returns (head: AioTask?, sz: nat, ghost taken: seq<AioTask>)
      requires Valid() && task !in tasks && task.next == null
      modifies this, tasks`next, task`next
      ensures Valid() && running == 1 && Chain(taken) && head == At(taken, 0)
      ensures old(running) == 1 ==> taken == [] && tasks == old(tasks) + [task]
      ensures old(running) == 0 ==> taken == [task] && tasks == [] && sz == |task.data|
    {
      Append(task);
      taken, head, sz := [], null, 0;
      if running == 1 { return; }
      running := 1;
      assert tasks == [task];
      SingleWorkload(task);
      head, sz, taken := UnlinkNextWorkload();
    }

    /** on_work_completed: the next workload, if any, goes to the disk. */
    method OnWorkCompleted() returns (head: AioTask?, sz: nat, ghost taken: seq<AioTask>)
      requires Valid() && running == 1
      modifies this, tasks`next
      ensures Valid() && Chain(taken) && head == At(taken, 0) && running == (if old(tasks) == [] then 0 else 1)
      ensures |taken| <= |old(tasks)| && taken == old(tasks)[..|taken|] && tasks == old(tasks)[|taken|..]
      ensures NextWorkload(Ops(old(tasks))) == (|taken|, sz)
    {
      running, taken, head, sz := 0, [], null, 0;
      if first != null {
        running := 1;
        head, sz, taken := UnlinkNextWorkload();
      }
    }
  }

  // ---- completion ------------------------------------------------------------------------------------

  /** The source's assertions on the way through a completed workload: no task asks for more than is left of
      the written size, and nothing is left over. */
  predicate Settles(q: seq<Write>, n: nat, left: nat)
    requires n <= |q|
    decreases |q| - n
  {
    if n == |q| then left == 0 else left >= |q[n].data| && Settles(q, n + 1, left - |q[n].data|)
  }

  /** They hold exactly when the disk reports the full size of the workload. */
  lemma {:induction false} SettlesIffFullSize(q: seq<Write>, n: nat, left: nat)
    requires n <= |q|
    ensures Settles(q, n, left) <==> left + |Bytes(q[..n])| == |Bytes(q)|
    decreases |q| - n
  {
    if n == |q| {
      assert q[..n] == q;
    } else {
      BytesStep(q, n);
      if left >= |q[n].data| {
        SettlesIffFullSize(q, n + 1, left - |q[n].data|);
      } else {
        BytesGrow(q, n + 1, |q|);
        assert q[..|q|] == q;
      }
    }
  }

  ghost predicate Completed(task: AioTask, err: Error, size: nat)
    reads task
  {
    task.next == null && task.result == Some(Result(err, if err == ERR_OK then |task.data| else size))
  }

  /** One task of the workload; the assertion is the source's. */
  method CompleteTask(task: AioTask, err: Error, left: nat) returns (left': nat)
    requires err == ERR_OK ==> left >= |task.data|
    modifies task
    ensures Completed(task, err, left) && left' == if err == ERR_OK then left - |task.data| else left
  {
    task.next := null;
    left' := left;
    if err == ERR_OK {
      task.result := Some(Result(err, |task.data|));
      left' := left - |task.data|;
    } else {
      task.result := Some(Result(err, left));
    }
  }

  /** The sizes left before each task of a workload that settles. */
  lemma {:induction false} Remainders(q: seq<Write>, n: nat, left: nat) returns (rest: seq<nat>)
    requires n <= |q| && Settles(q, n, left)
    ensures |rest| == |q| - n + 1 && rest[0] == left && rest[|q| - n] == 0
    ensures forall i :: 0 <= i < |q| - n ==> rest[i] == |q[n + i].data| + rest[i + 1]
    decreases |q| - n
  {
    rest := [left];
    if n < |q| {
      var more := Remainders(q, n + 1, left - |q[n].data|);
      rest := [left] + more;
      forall i | 0 <= i < |q| - n ensures rest[i] == |q[n + i].data| + rest[i + 1] {
        assert i > 0 ==> more[i - 1] == |q[n + 1 + (i - 1)].data| + more[i];
      }
    }
  }

  /** on_write_completed: every task of the workload is enqueued with its own size, or with the error. */
  method CompleteTasks(head: AioTask?, ghost taken: seq<AioTask>, err: Error, size: nat)
    requires Chain(taken) && head == At(taken, 0)
    requires err == ERR_OK ==> Settles(Ops(taken), 0, size)
    modifies taken
    ensures forall i :: 0 <= i < |taken| ==> Completed(taken[i], err, size)
  {
    var wk, left: nat := head, size;
    ghost var n: nat, rest := 0, seq(|taken| + 1, _ => size);
    if err == ERR_OK { rest := Remainders(Ops(taken), 0, size); }
    while wk != null
      invariant n <= |taken| && wk == At(taken, n) && left == rest[n]
      invariant forall i {:trigger taken[i].next} :: n <= i < |taken| ==> taken[i].next == At(taken, i + 1)
      invariant forall i :: 0 <= i < n ==> Completed(taken[i], err, size)
      decreases |taken| - n
    {
      assert wk == taken[n];
      assert err == ERR_OK ==> rest[n] == |wk.data| + rest[n + 1];
      var next := wk.next;
      left := CompleteTask(wk, err, left);
      wk := next;
      n := n + 1;
    }
    assert err == ERR_OK ==> left == 0;
  }

  // ---- what goes to the disk -------------------------------------------------------------------------

  /** The I/O context of a task: one buffer, or several not merged yet. */
  datatype Io = Io(offset: nat, size: nat, merged: bool, buffers: seq<seq<bv8>>)

  function Flat(buffers: seq<seq<bv8>>): seq<bv8> {
    if buffers == [] then [] else Flat(buffers[..|buffers| - 1]) + buffers[|buffers| - 1]
  }

  predicate ValidIo(io: Io) {
    io.size == |Flat(io.buffers)| && (io.merged ==> |io.buffers| == 1)
  }

  function Writes(ios: seq<Io>): (q: seq<Write>)
    ensures |q| == |ios| && forall i :: 0 <= i < |q| ==> q[i] == Write(ios[i].offset, Flat(ios[i].buffers))
  {
    seq(|ios|, i requires 0 <= i < |ios| => Write(ios[i].offset, Flat(ios[i].buffers)))
  }

  lemma {:induction false} FlatAppend(a: seq<seq<bv8>>, b: seq<seq<bv8>>)
    ensures Flat(a + b) == Flat(a) + Flat(b)
  {
    if b == [] {
      assert a + b == a;
    } else {
      var n, ab := |b| - 1, a + b;
      FlatAppend(a, b[..n]);
      assert ab[..|ab| - 1] == a + b[..n] && ab[|ab| - 1] == b[n];
      assert Flat(a) + Flat(b[..n]) + b[n] == Flat(a) + (Flat(b[..n]) + b[n]);
    }
  }

  /** aio_task::collapse: the buffers are copied one after the other into a fresh array. */
  method Collapse(buffers: seq<seq<bv8>>, size: nat) returns (buffer: array<bv8>)
    requires size == |Flat(buffers)|
    ensures fresh(buffer) && buffer[..] == Flat(buffers)
  {
    buffer := new bv8[size];
    var dest := 0;
    for i := 0 to |buffers|
      invariant dest == |Flat(buffers[..i])| && dest <= size
      invariant buffer[..dest] == Flat(buffers[..i])
    {
      var b := buffers[i];
      assert buffers[..i + 1][..i] == buffers[..i];
      FlatAppend(buffers[..i + 1], buffers[i + 1..]);
      assert buffers[..i + 1] + buffers[i + 1..] == buffers;
      forall k | 0 <= k < |b| {
        buffer[dest + k] := b[k];
      }
      assert buffer[..dest + |b|] == Flat(buffers[..i]) + b;
      dest := dest + |b|;
    }
    assert buffers[..|buffers|] == buffers;
  }

  /** What the provider is given: one buffer, or the buffers as they are. */
  datatype Handed = Merged(data: seq<bv8>) | Vector(buffers: seq<seq<bv8>>)

  function Content(h: Handed): seq<bv8> {
    match h
    case Merged(data) => data
    case Vector(buffers) => Flat(buffers)
  }

  /** process_write on a workload: what is written and where, and how often the method called itself. */
  method ProcessWrite(ios: seq<Io>, sz: nat, supportVector: bool) returns (offset: nat, handed: Handed, calls: nat)
    requires ios != [] && forall i :: 0 <= i < |ios| ==> ValidIo(ios[i])
    requires sz == ios[0].size || sz == |Bytes(Writes(ios))|
    ensures offset == ios[0].offset && calls == if ios[0].size == sz then 0 else 1
    ensures Content(handed) == WriteQueue.Submitted(Writes(ios), sz)
    ensures handed.Vector? ==> supportVector
    decreases if ios[0].size == sz then 0 else 1
  {
    if ios[0].size == sz {
      offset, calls := ios[0].offset, 0;
      if ios[0].merged {
        handed := Merged(ios[0].buffers[0]);
        assert Flat(ios[0].buffers) == Flat(ios[0].buffers[..0]) + ios[0].buffers[0];
      } else if supportVector {
        handed := Vector(ios[0].buffers);
      } else {
        var buffer := Collapse(ios[0].buffers, ios[0].size);
        handed := Merged(buffer[..]);
      }
    } else {
      var all := Gather(ios);
      var batch := Io(ios[0].offset, sz, false, all);
      offset, handed, calls := ProcessWrite([batch], sz, supportVector);
      calls := calls + 1;
    }
  }

  /** The loop that collects the buffers of a batch. */
  method Gather(ios: seq<Io>) returns (all: seq<seq<bv8>>)
    requires forall i :: 0 <= i < |ios| ==> ValidIo(ios[i])
    ensures Flat(all) == Bytes(Writes(ios))
  {
    all := [];
    ghost var q := Writes(ios);
    for i := 0 to |ios|
      invariant Flat(all) == Bytes(q[..i])
    {
      var more := if ios[i].merged then [ios[i].buffers[0]] else ios[i].buffers;
      assert more == ios[i].buffers;
      GatherStep(all, more, q, i);
      all := all + more;
    }
    assert q[..|ios|] == q;
  }

  lemma GatherStep(all: seq<seq<bv8>>, more: seq<seq<bv8>>, q: seq<Write>, i: nat)
    requires i < |q| && Flat(all) == Bytes(q[..i]) && Flat(more) == q[i].data
    ensures Flat(all + more) == Bytes(q[..i + 1])
  {
    assert q[..i + 1][..i] == q[..i];
    FlatAppend(all, more);
  }
}
