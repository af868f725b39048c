/** The slice processor: a FIFO queue of slices drained in batches of at most `batchSize`.
    The worker thread, its mutex and its wait condition are not modelled; one iteration of
    the `process()` loop is a method, and so is running that loop until it blocks or exits
    when no other thread intervenes. */
module SliceProcessing {
  import opened Common
  import opened MediaParser

  /** The signals of SliceProcessor, in emission order. */
  datatype ProcessorEvent = SlicesBatchProcessed(slices: seq<SliceInfo>) | ProcessingFinished

  /** How one iteration of the `process()` loop ends: blocked in the wait (queue empty while
      running), leaving the loop (queue empty and not running), or after draining a batch. */
  datatype StepOutcome = Waiting | Exited | Drained

  const DEFAULT_BATCH_SIZE: int := 50

  function Min(a: int, b: int): (m: int)
    ensures m <= a && m <= b && (m == a || m == b)
  {
    if a <= b then a else b
  }

  /** The batches that successive iterations take from `queue` when nothing else is queued
      in between: the first `batchSize` slices, then the next, and so on. */
  function Chunks(queue: seq<SliceInfo>, batchSize: int): seq<seq<SliceInfo>>
    requires batchSize > 0
    decreases |queue|
  {
    if queue == [] then []
    else
      var k := Min(batchSize, |queue|);
      [queue[..k]] + Chunks(queue[k..], batchSize)
  }

  /** The signals of successive iterations that drain `batches`: each batch, and
      processingFinished after the one that empties the queue. */
  function DrainEvents(batches: seq<seq<SliceInfo>>): seq<ProcessorEvent>
  {
    if batches == [] then []
    else
      [SlicesBatchProcessed(batches[0])] + (if |batches| == 1 then [ProcessingFinished] else [])
        + DrainEvents(batches[1..])
  }

  lemma FlattenCons(b: seq<SliceInfo>, batches: seq<seq<SliceInfo>>)
    ensures Flatten([b] + batches) == b + Flatten(batches)
    decreases |batches|
  {
    if batches != [] {
      var init := batches[..|batches| - 1];
      assert ([b] + batches)[..|batches|] == [b] + init;
      FlattenCons(b, init);
    } else {
      assert [b][..0] == [];
    }
  }

  /** Draining in batches loses, duplicates and reorders nothing: the batches concatenate to
      the queue, every one holds `batchSize` slices except the last, which holds between 1 and
      `batchSize`, and there are ceil(|queue| / batchSize) of them. */
  lemma {:induction false} ChunksPartition(queue: seq<SliceInfo>, batchSize: int)
    requires batchSize > 0
    ensures var cs := Chunks(queue, batchSize);
      && Flatten(cs) == queue
      && (forall j :: 0 <= j < |cs| - 1 ==> |cs[j]| == batchSize)
      && (cs != [] ==> 0 < |cs[|cs| - 1]| <= batchSize)
      && (cs == [] <==> queue == [])
      && |cs| == (|queue| + batchSize - 1) / batchSize
    decreases |queue|
  {
    if queue != [] {
      var k := Min(batchSize, |queue|);
      var rest := queue[k..];
      ChunksPartition(rest, batchSize);
      var cs := Chunks(queue, batchSize);
      assert cs == [queue[..k]] + Chunks(rest, batchSize);
      FlattenCons(queue[..k], Chunks(rest, batchSize));
      assert queue[..k] + rest == queue;
      BatchCountStep(|rest|, |queue|, batchSize);
    }
  }

  /** Taking one batch of min(b, n) from n > 0 items lowers ceil(n / b) by one. */
  lemma BatchCountStep(rest: nat, n: nat, b: int)
    requires b > 0 && n > 0 && rest == n - Min(b, n)
    ensures (n + b - 1) / b == (rest + b - 1) / b + 1
  {
    if n <= b {
      DivUnique(n + b - 1, b, 1);
      DivUnique(b - 1, b, 0);
    } else {
      var m := rest + b - 1;
      var q := m / b;
      assert m == q * b + m % b;
      assert (q + 1) * b == q * b + b;
      DivUnique(m + b, b, q + 1);
    }
  }

  /** Draining emits exactly the batches, in order, and processingFinished once, as the last
      signal, when there was anything to drain. */
  lemma {:induction false} DrainEventsShape(batches: seq<seq<SliceInfo>>)
    ensures var ev := DrainEvents(batches);
      && (batches == [] <==> ev == [])
      && (batches != [] ==> ev[|ev| - 1] == ProcessingFinished)
      && (forall j :: 0 <= j < |ev| - 1 ==> ev[j].SlicesBatchProcessed?)
      && |ev| == |batches| + (if batches == [] then 0 else 1)
      && (forall j :: 0 <= j < |batches| ==> ev[j] == SlicesBatchProcessed(batches[j]))
    decreases |batches|
  {
    if batches != [] {
      DrainEventsShape(batches[1..]);
      var ev := DrainEvents(batches);
      var tail := DrainEvents(batches[1..]);
      if |batches| == 1 {
        assert ev == [SlicesBatchProcessed(batches[0]), ProcessingFinished];
      } else {
        assert ev == [SlicesBatchProcessed(batches[0])] + tail;
        forall j | 0 <= j < |batches|
          ensures ev[j] == SlicesBatchProcessed(batches[j])
        {
          if j > 0 {
            assert ev[j] == tail[j - 1];
            assert batches[1..][j - 1] == batches[j];
          }
        }
      }
    }
  }

  /** SliceProcessor. The ghost fields record, since the last clearSlices, every slice queued
      and every batch emitted. */
  class SliceProcessor {
    var queue: seq<SliceInfo>
    var processedSlices: seq<SliceInfo>
    var running: bool
    var batchSize: int
    ghost var queued: seq<SliceInfo>
    ghost var emitted: seq<seq<SliceInfo>>

    /** The batch size stays positive, the emitted batches are exactly the processed slices,
        and the processed slices followed by the queue are exactly what was queued: nothing
        lost, duplicated or reordered. */
    ghost predicate Valid()
      reads this
    {
      && batchSize > 0
      && Flatten(emitted) == processedSlices
      && queued == processedSlices + queue
    }

    constructor ()
      ensures Valid()
      ensures !running && batchSize == DEFAULT_BATCH_SIZE
      ensures queue == [] && processedSlices == [] && queued == [] && emitted == []
    {
      queue := [];
      processedSlices := [];
      running := false;
      batchSize := DEFAULT_BATCH_SIZE;
      queued := [];
      emitted := [];
    }

    method Start()
      modifies this
      ensures running
      ensures queue == old(queue) && processedSlices == old(processedSlices) && batchSize == old(batchSize)
      ensures queued == old(queued) && emitted == old(emitted)
    {
      running := true;
    }

    method Stop()
      modifies this
      ensures !running
      ensures queue == old(queue) && processedSlices == old(processedSlices) && batchSize == old(batchSize)
      ensures queued == old(queued) && emitted == old(emitted)
    {
      running := false;
    }

    /** queueSlices: appends the slices to the tail of the queue, in order; an empty list
        changes nothing. */
    method QueueSlices(slices: seq<SliceInfo>)
      requires Valid()
      modifies this
      ensures Valid()
      ensures queue == old(queue) + slices && queued == old(queued) + slices
      ensures processedSlices == old(processedSlices) && emitted == old(emitted)
      ensures running == old(running) && batchSize == old(batchSize)
    {
      if slices == [] {
        return;
      }
      for i := 0 to |slices|
        invariant queue == old(queue) + slices[..i] && queued == old(queued) + slices[..i]
        invariant processedSlices == old(processedSlices) && emitted == old(emitted)
        invariant running == old(running) && batchSize == old(batchSize)
      {
        queue := queue + [slices[i]];
        queued := queued + [slices[i]];
        assert slices[..i + 1] == slices[..i] + [slices[i]];
      }
      assert slices[..|slices|] == slices;
    }

    /** clearSlices: empties the queue and the processed list; the running flag and the
        batch size stay. */
    method ClearSlices()
      requires Valid()
      modifies this
      ensures Valid()
      ensures queue == [] && processedSlices == [] && queued == [] && emitted == []
      ensures running == old(running) && batchSize == old(batchSize)
    {
      queue := [];
      processedSlices := [];
      queued := [];
      emitted := [];
    }

    method IsRunning() returns (r: bool)
      ensures r == running
    {
      r := running;
    }

    /** setBatchSize: only a positive size is taken. */
    method SetBatchSize(size: int)
      requires Valid()
      modifies this
      ensures Valid()
      ensures batchSize == if size > 0 then size else old(batchSize)
      ensures queue == old(queue) && processedSlices == old(processedSlices) && running == old(running)
      ensures queued == old(queued) && emitted == old(emitted)
    {
      if size > 0 {
        batchSize := size;
      }
    }

    /** One iteration of the `process()` loop. With an empty queue it waits while running
        and leaves the loop otherwise; with a non-empty queue (even after stop) it moves the
        first min(batchSize, |queue|) slices, in queue order, into one batch and onto the
        processed list, emits the batch, and emits processingFinished if the queue is now
        empty. */
    method ProcessStep() returns (outcome: StepOutcome, events: seq<ProcessorEvent>)
      requires Valid()
      modifies this
      ensures Valid()
      ensures running == old(running) && batchSize == old(batchSize) && queued == old(queued)
      ensures old(queue) == [] ==>
                && outcome == (if old(running) then Waiting else Exited) && events == []
                && queue == old(queue) && processedSlices == old(processedSlices) && emitted == old(emitted)
      ensures old(queue) != [] ==>
                var k := Min(batchSize, |old(queue)|);
                && outcome == Drained
                && queue == old(queue)[k..]
                && processedSlices == old(processedSlices) + old(queue)[..k]
                && emitted == old(emitted) + [old(queue)[..k]]
                && events == [SlicesBatchProcessed(old(queue)[..k])]
                               + (if queue == [] then [ProcessingFinished] else [])
    {
      events := [];
      if queue == [] && running {
        return Waiting, events;
      }
      if !running && queue == [] {
        return Exited, events;
      }
      var batch := TakeBatch(Min(batchSize, |queue|));
      assert batch + queue == old(queue);
      emitted := emitted + [batch];
      FlattenSnoc(old(emitted), batch);
      if batch != [] {
        events := events + [SlicesBatchProcessed(batch)];
      }
      if queue == [] {
        events := events + [ProcessingFinished];
      }
      outcome := Drained;
    }

    /** The batch loop: dequeues `count` slices, in order, into the batch and onto the
        processed list. */
    method TakeBatch(count: nat) returns (batch: seq<SliceInfo>)
      requires count <= |queue|
      modifies this
      ensures batch == old(queue)[..count] && queue == old(queue)[count..]
      ensures processedSlices == old(processedSlices) + batch
      ensures running == old(running) && batchSize == old(batchSize)
      ensures queued == old(queued) && emitted == old(emitted)
    {
      batch := [];
      for i := 0 to count
        invariant batch == old(queue)[..i] && queue == old(queue)[i..]
        invariant processedSlices == old(processedSlices) + batch
        invariant running == old(running) && batchSize == old(batchSize)
        invariant queued == old(queued) && emitted == old(emitted)
      {
        if queue != [] {
          var slice := queue[0];
          queue := queue[1..];
          batch := batch + [slice];
          processedSlices := processedSlices + [slice];
          assert old(queue)[..i + 1] == old(queue)[..i] + [slice];
        }
      }
    }

    /** The `process()` loop when no other thread queues or stops in the meantime: it drains
        the queue batch by batch and then blocks in the wait if running, or returns if not. */
    method Process() returns (outcome: StepOutcome, events: seq<ProcessorEvent>)
      requires Valid()
      modifies this
      ensures Valid()
      ensures events == DrainEvents(Chunks(old(queue), old(batchSize)))
      ensures queue == [] && processedSlices == old(processedSlices) + old(queue)
      ensures outcome == (if running then Waiting else Exited)
      ensures running == old(running) && batchSize == old(batchSize) && queued == old(queued)
    {
      events := [];
      while true
        invariant Valid()
        invariant running == old(running) && batchSize == old(batchSize) && queued == old(queued)
        invariant processedSlices + queue == old(processedSlices) + old(queue)
        invariant events + DrainEvents(Chunks(queue, batchSize)) == DrainEvents(Chunks(old(queue), batchSize))
        decreases |queue|
      {
        ghost var before := queue;
        var o, stepEvents := ProcessStep();
        if o != Drained {
          outcome := o;
          assert before == [];
          assert events == DrainEvents(Chunks(old(queue), batchSize));
          break;
        }
        var k := Min(batchSize, |before|);
        assert Chunks(before, batchSize) == [before[..k]] + Chunks(queue, batchSize);
        assert stepEvents + DrainEvents(Chunks(queue, batchSize)) == DrainEvents(Chunks(before, batchSize));
        events := events + stepEvents;
      }
    }
  }
}
