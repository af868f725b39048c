/** The parser worker (MediaParserThread): opens the container, reads every packet,
    turns each into a SliceInfo, reports progress and hands the slices on in batches of 100.
    The stop flag that another thread may set while the scan runs is replaced by an oracle
    `stopAt`: the index of the first `isStopped()` call that returns true (None if none does).
    Within one scan the flag only goes from false to true, so this covers every interleaving.
    The `isStopped()` calls are numbered in order: call i is made right after packet i has
    been read, and the call after the loop comes last. */
module MediaParser {
  import opened Common
  import opened Container

  /** SliceInfo: the record created for one packet (its header is not part of this model;
      the fields are the ones createSliceInfo assigns). */
  datatype SliceInfo = SliceInfo(
    streamIndex: int32,
    streamType: string,
    pts: int64,
    dts: int64,
    duration: int64,
    pos: int64,
    size: int32,
    isKeyFrame: bool)

  /** The signals of MediaParserThread, in emission order. */
  datatype ParserEvent =
    | SlicesParsed(slices: seq<SliceInfo>)
    | ParsingProgress(percentage: int)
    | ParsingFinished
    | ParserError(message: string)

  /** Number of slices collected before a batch is emitted inside the scan loop. */
  const BATCH_THRESHOLD: nat := 100

  const OPEN_FAILED_MESSAGE: string := "Failed to open file for parsing"

  // ---------------------------------------------------------------------------
  // getStreamType and createSliceInfo

  /** getStreamType: the name of the stream's media type, "unknown" without an open
      context, for an index outside [0, nb_streams) and for the other media types. */
  function GetStreamType(context: Option<FormatContext>, streamIndex: int): (r: string)
  {
    if context.None? || streamIndex < 0 || streamIndex >= |context.value.streams| then "unknown"
    else
      match context.value.streams[streamIndex].codecType
      case Video => "video"
      case Audio => "audio"
      case Subtitle => "subtitle"
      case Data => "data"
      case _ => "unknown"
  }

  /** The stream type is one of five names; it is "unknown" outside the open context's
      streams, and "video" or "audio" exactly for video and audio streams. */
  lemma StreamTypeNames(context: Option<FormatContext>, streamIndex: int)
    ensures var r := GetStreamType(context, streamIndex);
      && r in {"video", "audio", "subtitle", "data", "unknown"}
      && (context.None? || streamIndex < 0 || streamIndex >= |context.value.streams| ==> r == "unknown")
      && (r == "video" <==> context.Some? && 0 <= streamIndex < |context.value.streams|
                            && context.value.streams[streamIndex].codecType == Video)
      && (r == "audio" <==> context.Some? && 0 <= streamIndex < |context.value.streams|
                            && context.value.streams[streamIndex].codecType == Audio)
  {
  }

  /** createSliceInfo: copies the packet's fields, reads the key-frame bit of its flags and
      names the stream's type. */
  function CreateSliceInfo(context: Option<FormatContext>, packet: Packet, streamIndex: int32): (slice: SliceInfo)
    ensures slice.streamIndex == streamIndex && slice.pts == packet.pts && slice.dts == packet.dts
    ensures slice.duration == packet.duration && slice.pos == packet.pos && slice.size == packet.size
    ensures slice.isKeyFrame <==> packet.flags & AV_PKT_FLAG_KEY == AV_PKT_FLAG_KEY
    ensures slice.streamType == GetStreamType(context, streamIndex)
  {
    SliceInfo(streamIndex, GetStreamType(context, streamIndex), packet.pts, packet.dts,
              packet.duration, packet.pos, packet.size, packet.flags & AV_PKT_FLAG_KEY != 0)
  }

  // ---------------------------------------------------------------------------
  // Progress

  /** `static_cast<int>((currentTime * 100) / totalDuration)` with int64 operands:
      the product wraps around in 64 bits, the division truncates toward zero and the
      cast keeps the low 32 bits. */
  function ProgressPercent(pts: int64, totalDuration: int64): int32
    requires totalDuration > 0
  {
    WrapInt32(TruncDiv(WrapInt64(pts * 100), totalDuration))
  }

  /** Without overflow the percentage is the floor of pts * 100 / totalDuration. */
  lemma ProgressPercentExact(pts: int64, totalDuration: int64)
    requires totalDuration > 0 && 0 < pts && pts * 100 <= INT64_MAX
    requires pts * 100 / totalDuration <= INT32_MAX
    ensures ProgressPercent(pts, totalDuration) == pts * 100 / totalDuration
  {
    TruncDivIsDivision(pts * 100, totalDuration);
  }

  lemma DivAtMost(a: int, b: int, c: nat)
    requires 0 <= a <= b * c && b > 0
    ensures a / b <= c
  {
  }

  /** A packet whose timestamp does not exceed the duration yields a percentage in [0, 100]. */
  lemma ProgressWithinDuration(pts: int64, totalDuration: int64)
    requires 0 < pts <= totalDuration && pts * 100 <= INT64_MAX
    ensures 0 <= ProgressPercent(pts, totalDuration) <= 100
  {
    DivAtMost(pts * 100, totalDuration, 100);
    ProgressPercentExact(pts, totalDuration);
  }

  /** The percentage computed for one packet: only when both the duration and the pts are
      positive. */
  function PacketPercent(totalDuration: int64, pts: int64): (p: Option<int>)
  {
    if totalDuration > 0 && pts > 0 then Some(ProgressPercent(pts, totalDuration) as int) else None
  }

  /** The progress value emitted for a computed percentage: one inside [0, 100] that
      differs from the last value emitted (no clamping and no monotonicity). */
  function EmittedProgress(percent: Option<int>, lastProgress: int): (p: Option<int>)
  {
    if percent.Some? && percent.value != lastProgress && 0 <= percent.value <= 100 then percent else None
  }

  /** A progress signal needs a positive duration and pts and carries a value in [0, 100];
      once emitted, the same packet seen again emits nothing, so consecutive signals never
      repeat a value. */
  lemma ProgressDeduplicates(totalDuration: int64, pts: int64, lastProgress: int)
    ensures var p := EmittedProgress(PacketPercent(totalDuration, pts), lastProgress);
      && (p.Some? ==> totalDuration > 0 && pts > 0 && 0 <= p.value <= 100 && p.value != lastProgress)
      && (p.Some? ==> EmittedProgress(PacketPercent(totalDuration, pts), p.value).None?)
  {
  }

  // ---------------------------------------------------------------------------
  // The scan loop as a fold over what its body computes per packet

  /** What the loop body derives from one packet before touching its state: the slice and
      the percentage, if one is computed. */
  datatype StepInput = StepInput(slice: SliceInfo, percent: Option<int>)

  function InputOf(context: FormatContext, packet: Packet): StepInput
  {
    StepInput(CreateSliceInfo(Some(context), packet, packet.streamIndex),
              PacketPercent(context.duration, packet.pts))
  }

  function Inputs(context: FormatContext, packets: seq<Packet>): (inputs: seq<StepInput>)
    ensures |inputs| == |packets|
    ensures forall i :: 0 <= i < |packets| ==> inputs[i] == InputOf(context, packets[i])
  {
    seq(|packets|, i requires 0 <= i < |packets| => InputOf(context, packets[i]))
  }

  /** The loop's local state: the pending slice list, the last emitted progress and the
      signals emitted so far. */
  datatype ScanState = ScanState(buffer: seq<SliceInfo>, lastProgress: int, events: seq<ParserEvent>)

  /** One iteration of the loop body for a packet that was read and not stopped: the slice
      joins the pending list, a progress value may be emitted, and a full list is emitted
      and emptied. */
  function ScanStep(st: ScanState, input: StepInput): ScanState
  {
    var buffer := st.buffer + [input.slice];
    var progress := EmittedProgress(input.percent, st.lastProgress);
    var events := st.events + (if progress.Some? then [ParsingProgress(progress.value)] else []);
    var lastProgress := if progress.Some? then progress.value else st.lastProgress;
    if |buffer| >= BATCH_THRESHOLD then ScanState([], lastProgress, events + [SlicesParsed(buffer)])
    else ScanState(buffer, lastProgress, events)
  }

  /** The loop's state after the iterations for `inputs`, in order. */
  function ScanFold(inputs: seq<StepInput>): ScanState
  {
    if inputs == [] then ScanState([], -1, [])
    else ScanStep(ScanFold(inputs[..|inputs| - 1]), inputs[|inputs| - 1])
  }

  /** The loop's state after converting `packets`, in order. */
  function ScanLoop(context: FormatContext, packets: seq<Packet>): ScanState
  {
    ScanFold(Inputs(context, packets))
  }

  lemma ScanFoldSnoc(init: seq<StepInput>, input: StepInput)
    ensures ScanFold(init + [input]) == ScanStep(ScanFold(init), input)
  {
    assert (init + [input])[..|init|] == init;
  }

  /** The number of packets turned into slices: all packets read, unless an `isStopped()`
      call inside the loop returns true, in which case the packet just read is dropped. */
  function SlicesConverted(results: seq<ReadResult>, stopAt: Option<nat>): (k: nat)
    ensures k <= FramesRead(results)
    ensures k < FramesRead(results) <==> stopAt.Some? && stopAt.value < FramesRead(results)
  {
    var n := FramesRead(results);
    if stopAt.Some? && stopAt.value < n then stopAt.value else n
  }

  /** The value of the stop flag at the `isStopped()` call after the loop: that call is
      number k+1 after a stop at packet k, and number FramesRead(results) otherwise. */
  predicate StoppedAfterScan(results: seq<ReadResult>, stopAt: Option<nat>)
  {
    stopAt.Some? && stopAt.value <= FramesRead(results)
  }

  /** Everything the scan emits up to the flush after the loop (which happens however the
      loop ended). */
  function ScanEvents(context: FormatContext, results: seq<ReadResult>, stopAt: Option<nat>): seq<ParserEvent>
  {
    var st := ScanLoop(context, PacketsRead(results)[..SlicesConverted(results, stopAt)]);
    st.events + (if st.buffer != [] then [SlicesParsed(st.buffer)] else [])
  }

  /** The slices of `packets`, one per packet, in order. */
  function SlicesOf(context: FormatContext, packets: seq<Packet>): (slices: seq<SliceInfo>)
    ensures |slices| == |packets|
    ensures forall i :: 0 <= i < |packets| ==> slices[i] == CreateSliceInfo(Some(context), packets[i], packets[i].streamIndex)
  {
    seq(|packets|, i requires 0 <= i < |packets| => CreateSliceInfo(Some(context), packets[i], packets[i].streamIndex))
  }

  function InputSlices(inputs: seq<StepInput>): (slices: seq<SliceInfo>)
    ensures |slices| == |inputs|
    ensures forall i :: 0 <= i < |inputs| ==> slices[i] == inputs[i].slice
  {
    seq(|inputs|, i requires 0 <= i < |inputs| => inputs[i].slice)
  }

  /** The payloads of the `slicesParsed` signals, in emission order. */
  function Batches(events: seq<ParserEvent>): seq<seq<SliceInfo>>
  {
    if events == [] then []
    else
      var last := events[|events| - 1];
      Batches(events[..|events| - 1]) + (if last.SlicesParsed? then [last.slices] else [])
  }

  /** The values of the `parsingProgress` signals, in emission order. */
  function Progresses(events: seq<ParserEvent>): seq<int>
  {
    if events == [] then []
    else
      var last := events[|events| - 1];
      Progresses(events[..|events| - 1]) + (if last.ParsingProgress? then [last.percentage] else [])
  }

  function Flatten(batches: seq<seq<SliceInfo>>): seq<SliceInfo>
  {
    if batches == [] then [] else Flatten(batches[..|batches| - 1]) + batches[|batches| - 1]
  }

  lemma {:induction false} BatchesAppend(a: seq<ParserEvent>, b: seq<ParserEvent>)
    ensures Batches(a + b) == Batches(a) + Batches(b)
    ensures Progresses(a + b) == Progresses(a) + Progresses(b)
    decreases |b|
  {
    if b == [] {
      assert a + b == a;
    } else {
      var b' := b[..|b| - 1];
      assert (a + b)[..|a + b| - 1] == a + b';
      assert b[..|b| - 1] == b';
      BatchesAppend(a, b');
    }
  }

  lemma FlattenSnoc(batches: seq<seq<SliceInfo>>, b: seq<SliceInfo>)
    ensures Flatten(batches + [b]) == Flatten(batches) + b
  {
    assert (batches + [b])[..|batches|] == batches;
  }

  lemma SingleEvent(e: ParserEvent)
    ensures Batches([e]) == (if e.SlicesParsed? then [e.slices] else [])
    ensures Progresses([e]) == (if e.ParsingProgress? then [e.percentage] else [])
  {
    assert [e][..0] == [];
  }

  /** What one loop iteration adds to the emitted batches, the emitted progress values and
      the pending slices. */
  lemma ScanStepFacts(st: ScanState, input: StepInput)
    ensures var next := ScanStep(st, input);
      var progress := EmittedProgress(input.percent, st.lastProgress);
      && Progresses(next.events) == Progresses(st.events) + (if progress.Some? then [progress.value] else [])
      && next.lastProgress == (if progress.Some? then progress.value else st.lastProgress)
      && (|st.buffer| + 1 >= BATCH_THRESHOLD ==>
            next.buffer == [] && Batches(next.events) == Batches(st.events) + [st.buffer + [input.slice]])
      && (|st.buffer| + 1 < BATCH_THRESHOLD ==>
            next.buffer == st.buffer + [input.slice] && Batches(next.events) == Batches(st.events))
      && (forall e :: e in next.events ==> e in st.events || e.SlicesParsed? || e.ParsingProgress?)
  {
    var buffer := st.buffer + [input.slice];
    var progress := EmittedProgress(input.percent, st.lastProgress);
    var added := if progress.Some? then [ParsingProgress(progress.value)] else [];
    var events := st.events + added;
    BatchesAppend(st.events, added);
    if progress.Some? {
      SingleEvent(ParsingProgress(progress.value));
    }
    BatchesAppend(events, [SlicesParsed(buffer)]);
    SingleEvent(SlicesParsed(buffer));
  }

  /** The pending list and the emitted batches account for the `n` slices converted so far:
      batches of exactly 100 followed by fewer than 100 pending slices. */
  predicate BatchAccounting(st: ScanState, converted: seq<SliceInfo>, n: nat)
  {
    && Flatten(Batches(st.events)) + st.buffer == converted
    && (forall b :: b in Batches(st.events) ==> |b| == BATCH_THRESHOLD)
    && |Batches(st.events)| == n / BATCH_THRESHOLD
    && |st.buffer| == n % BATCH_THRESHOLD
  }

  /** The loop keeps fewer than 100 slices pending, every batch it emits holds exactly 100,
      and the emitted batches followed by the pending slices are the slices of the
      iterations, in order, each exactly once. */
  lemma {:induction false} ScanFoldBatches(inputs: seq<StepInput>)
    ensures BatchAccounting(ScanFold(inputs), InputSlices(inputs), |inputs|)
    decreases |inputs|
  {
    if inputs != [] {
      var init, input := inputs[..|inputs| - 1], inputs[|inputs| - 1];
      ScanFoldBatches(init);
      InputsSnoc(inputs);
      BatchStep(ScanFold(init), input, InputSlices(init), |init|);
    }
  }

  /** The fold and the slices of a non-empty list of iterations, split at the last one. */
  lemma InputsSnoc(inputs: seq<StepInput>)
    requires inputs != []
    ensures var init, input := inputs[..|inputs| - 1], inputs[|inputs| - 1];
      && ScanFold(inputs) == ScanStep(ScanFold(init), input)
      && InputSlices(inputs) == InputSlices(init) + [input.slice]
  {
  }

  /** Extending a prefix of the iterations by one more. */
  lemma PrefixSnoc(inputs: seq<StepInput>, i: nat)
    requires i < |inputs|
    ensures ScanFold(inputs[..i + 1]) == ScanStep(ScanFold(inputs[..i]), inputs[i])
  {
    assert inputs[..i + 1][..i] == inputs[..i];
  }

  /** One loop iteration keeps the accounting, with one more converted slice. */
  lemma BatchStep(st: ScanState, input: StepInput, converted: seq<SliceInfo>, n: nat)
    requires BatchAccounting(st, converted, n)
    ensures BatchAccounting(ScanStep(st, input), converted + [input.slice], n + 1)
  {
    var next := ScanStep(st, input);
    ScanStepFacts(st, input);
    AccountingStep(Batches(st.events), st.buffer, input.slice,
                   converted, n, Batches(next.events), next.buffer);
  }

  /** The bookkeeping of one loop iteration, on plain sequences: the slice joins the pending
      list, which is emitted when it reaches the threshold. */
  lemma AccountingStep(before: seq<seq<SliceInfo>>, buffer: seq<SliceInfo>, slice: SliceInfo,
                       converted: seq<SliceInfo>, n: nat,
                       after: seq<seq<SliceInfo>>, bufferAfter: seq<SliceInfo>)
    requires Flatten(before) + buffer == converted
    requires forall b :: b in before ==> |b| == BATCH_THRESHOLD
    requires |before| == n / BATCH_THRESHOLD && |buffer| == n % BATCH_THRESHOLD
    requires |buffer| + 1 >= BATCH_THRESHOLD ==> bufferAfter == [] && after == before + [buffer + [slice]]
    requires |buffer| + 1 < BATCH_THRESHOLD ==> bufferAfter == buffer + [slice] && after == before
    ensures Flatten(after) + bufferAfter == converted + [slice]
    ensures forall b :: b in after ==> |b| == BATCH_THRESHOLD
    ensures |after| == (n + 1) / BATCH_THRESHOLD && |bufferAfter| == (n + 1) % BATCH_THRESHOLD
  {
    CountStep(n);
    if |buffer| + 1 >= BATCH_THRESHOLD {
      FlattenSnoc(before, buffer + [slice]);
      calc {
        Flatten(after) + bufferAfter;
        Flatten(before + [buffer + [slice]]) + [];
        Flatten(before) + (buffer + [slice]);
        (Flatten(before) + buffer) + [slice];
      }
    } else {
      calc {
        Flatten(after) + bufferAfter;
        Flatten(before) + (buffer + [slice]);
        (Flatten(before) + buffer) + [slice];
      }
    }
  }

  /** Counting one more packet: the quotient and remainder by the batch threshold. */
  lemma CountStep(n: nat)
    ensures n % BATCH_THRESHOLD == BATCH_THRESHOLD - 1 ==>
              (n + 1) % BATCH_THRESHOLD == 0 && (n + 1) / BATCH_THRESHOLD == n / BATCH_THRESHOLD + 1
    ensures n % BATCH_THRESHOLD < BATCH_THRESHOLD - 1 ==>
              (n + 1) % BATCH_THRESHOLD == n % BATCH_THRESHOLD + 1 && (n + 1) / BATCH_THRESHOLD == n / BATCH_THRESHOLD
  {
    var q, r := n / BATCH_THRESHOLD, n % BATCH_THRESHOLD;
    assert n == q * BATCH_THRESHOLD + r;
    if r == BATCH_THRESHOLD - 1 {
      assert n + 1 == (q + 1) * BATCH_THRESHOLD + 0;
    } else {
      assert n + 1 == q * BATCH_THRESHOLD + (r + 1);
    }
  }

  /** The progress values emitted so far are in [0, 100], each differs from the one before
      it and each is the percentage computed by one of the iterations; `last` is the last
      value emitted, or -1 before the first. */
  predicate ProgressHistory(inputs: seq<StepInput>, pr: seq<int>, last: int)
  {
    && (forall j :: 0 <= j < |pr| ==> 0 <= pr[j] <= 100)
    && (forall j :: 0 < j < |pr| ==> pr[j] != pr[j - 1])
    && (forall j :: 0 <= j < |pr| ==> exists i :: 0 <= i < |inputs| && inputs[i].percent == Some(pr[j]))
    && last == (if pr == [] then -1 else pr[|pr| - 1])
  }

  /** The loop's progress signals keep that history: values in [0, 100], never the value
      just emitted, each one computed from some packet, and the loop remembers the last one.
      Nothing makes them non-decreasing. */
  lemma {:induction false} ScanFoldProgress(inputs: seq<StepInput>)
    ensures ProgressHistory(inputs, Progresses(ScanFold(inputs).events), ScanFold(inputs).lastProgress)
    decreases |inputs|
  {
    if inputs != [] {
      var init := inputs[..|inputs| - 1];
      ScanFoldProgress(init);
      InputsSnoc(inputs);
      ProgressStep(inputs, ScanFold(init));
    }
  }

  /** One loop iteration keeps the progress history. */
  /** A packet that emits nothing keeps the history as it was. */
  lemma HistoryKeep(inputs: seq<StepInput>, before: seq<int>, last: int)
    requires inputs != []
    requires ProgressHistory(inputs[..|inputs| - 1], before, last)
    ensures ProgressHistory(inputs, before, last)
  {
    var init := inputs[..|inputs| - 1];
    forall j | 0 <= j < |before|
      ensures exists i :: 0 <= i < |inputs| && inputs[i].percent == Some(before[j])
    {
      var i :| 0 <= i < |init| && init[i].percent == Some(before[j]);
      assert inputs[i] == init[i];
    }
  }

  /** A packet that emits `v` extends the history by `v`: it lies in [0, 100], differs from
      the last value and comes from that packet. */
  lemma HistoryPush(inputs: seq<StepInput>, before: seq<int>, last: int, v: int)
    requires inputs != []
    requires ProgressHistory(inputs[..|inputs| - 1], before, last)
    requires 0 <= v <= 100 && v != last && inputs[|inputs| - 1].percent == Some(v)
    ensures ProgressHistory(inputs, before + [v], v)
  {
    HistoryKeep(inputs, before, last);
    var after := before + [v];
    forall j | 0 <= j < |after|
      ensures exists i :: 0 <= i < |inputs| && inputs[i].percent == Some(after[j])
    {
      if j == |before| {
        assert inputs[|inputs| - 1].percent == Some(after[j]);
      } else {
        assert after[j] == before[j];
      }
    }
  }

  /** One more packet keeps the history, whether or not it emits a value. */
  lemma HistoryExtend(inputs: seq<StepInput>, before: seq<int>, last: int)
    requires inputs != []
    requires ProgressHistory(inputs[..|inputs| - 1], before, last)
    ensures var p := EmittedProgress(inputs[|inputs| - 1].percent, last);
      ProgressHistory(inputs, before + (if p.Some? then [p.value] else []), if p.Some? then p.value else last)
  {
    var p := EmittedProgress(inputs[|inputs| - 1].percent, last);
    if p.Some? {
      HistoryPush(inputs, before, last, p.value);
    } else {
      HistoryKeep(inputs, before, last);
      assert before + [] == before;
    }
  }

  lemma ProgressStep(inputs: seq<StepInput>, st: ScanState)
    requires inputs != []
    requires ProgressHistory(inputs[..|inputs| - 1], Progresses(st.events), st.lastProgress)
    ensures var next := ScanStep(st, inputs[|inputs| - 1]);
      ProgressHistory(inputs, Progresses(next.events), next.lastProgress)
  {
    ScanStepFacts(st, inputs[|inputs| - 1]);
    HistoryExtend(inputs, Progresses(st.events), st.lastProgress);
  }



  /** The loop emits only slice batches and progress values. */
  lemma {:induction false} ScanFoldKinds(inputs: seq<StepInput>)
    ensures forall e :: e in ScanFold(inputs).events ==> e.SlicesParsed? || e.ParsingProgress?
    decreases |inputs|
  {
    if inputs != [] {
      var init, input := inputs[..|inputs| - 1], inputs[|inputs| - 1];
      ScanFoldKinds(init);
      InputsSnoc(inputs);
      ScanStepFacts(ScanFold(init), input);
    }
  }

  /** The batches the scan hands on (inside the loop and in the flush) are the slices of the
      converted packets in read order; all but the last hold 100 slices, the last one holds
      between 1 and 100, and there are ceil(k / 100) of them for k converted packets. */
  lemma ScanDeliversEveryPacket(context: FormatContext, results: seq<ReadResult>, stopAt: Option<nat>)
    ensures var k := SlicesConverted(results, stopAt);
      var bs := Batches(ScanEvents(context, results, stopAt));
      && Flatten(bs) == SlicesOf(context, PacketsRead(results)[..k])
      && |bs| == (k + BATCH_THRESHOLD - 1) / BATCH_THRESHOLD
      && (forall j :: 0 <= j < |bs| - 1 ==> |bs[j]| == BATCH_THRESHOLD)
      && (|bs| > 0 ==> 0 < |bs[|bs| - 1]| <= BATCH_THRESHOLD)
  {
    var k := SlicesConverted(results, stopAt);
    var packets := PacketsRead(results)[..k];
    var inputs := Inputs(context, packets);
    var st := ScanFold(inputs);
    ScanFoldBatches(inputs);
    assert InputSlices(inputs) == SlicesOf(context, packets);
    assert BatchAccounting(st, SlicesOf(context, packets), k);
    FlushStep(st.events, st.buffer, SlicesOf(context, packets), k);
  }

  /** The flush after the loop, on plain sequences: emitting the non-empty pending list
      completes the batches. */
  lemma FlushStep(events: seq<ParserEvent>, buffer: seq<SliceInfo>, converted: seq<SliceInfo>, k: nat)
    requires Flatten(Batches(events)) + buffer == converted
    requires forall b :: b in Batches(events) ==> |b| == BATCH_THRESHOLD
    requires |Batches(events)| == k / BATCH_THRESHOLD && |buffer| == k % BATCH_THRESHOLD
    ensures var bs := Batches(events + (if buffer != [] then [SlicesParsed(buffer)] else []));
      && Flatten(bs) == converted
      && |bs| == (k + BATCH_THRESHOLD - 1) / BATCH_THRESHOLD
      && (forall j :: 0 <= j < |bs| - 1 ==> |bs[j]| == BATCH_THRESHOLD)
      && (|bs| > 0 ==> 0 < |bs[|bs| - 1]| <= BATCH_THRESHOLD)
  {
    var loopBatches := Batches(events);
    var flush := if buffer != [] then [SlicesParsed(buffer)] else [];
    BatchesAppend(events, flush);
    var bs := Batches(events + flush);
    CeilStep(k);
    if buffer != [] {
      SingleEvent(SlicesParsed(buffer));
      assert bs == loopBatches + [buffer];
      FlattenSnoc(loopBatches, buffer);
      forall j | 0 <= j < |bs| - 1 ensures |bs[j]| == BATCH_THRESHOLD {
        assert bs[j] == loopBatches[j];
        assert loopBatches[j] in loopBatches;
      }
    } else {
      assert Batches(flush) == [];
      assert bs == loopBatches;
      assert Flatten(loopBatches) + buffer == Flatten(loopBatches);
      if |bs| > 0 {
        assert bs[|bs| - 1] in loopBatches;
      }
      forall j | 0 <= j < |bs| - 1 ensures |bs[j]| == BATCH_THRESHOLD {
        assert bs[j] in loopBatches;
      }
    }
  }

  /** The number of batches after the flush is the ceiling of k / 100. */
  lemma CeilStep(k: nat)
    ensures k % BATCH_THRESHOLD == 0 ==> (k + BATCH_THRESHOLD - 1) / BATCH_THRESHOLD == k / BATCH_THRESHOLD
    ensures k % BATCH_THRESHOLD != 0 ==> (k + BATCH_THRESHOLD - 1) / BATCH_THRESHOLD == k / BATCH_THRESHOLD + 1
  {
    var q, r := k / BATCH_THRESHOLD, k % BATCH_THRESHOLD;
    assert k == q * BATCH_THRESHOLD + r;
    if r == 0 {
      assert k + BATCH_THRESHOLD - 1 == q * BATCH_THRESHOLD + (BATCH_THRESHOLD - 1);
    } else {
      assert k + BATCH_THRESHOLD - 1 == (q + 1) * BATCH_THRESHOLD + (r - 1);
    }
  }

  /** Everything the scan emits as progress is in [0, 100], never repeats the value just
      before it, and is the percentage of a converted packet with a positive pts; with a
      duration that is not positive nothing is emitted. */
  lemma ScanEventsProgress(context: FormatContext, results: seq<ReadResult>, stopAt: Option<nat>)
    ensures var pr := Progresses(ScanEvents(context, results, stopAt));
      var packets := PacketsRead(results)[..SlicesConverted(results, stopAt)];
      && (forall j :: 0 <= j < |pr| ==> 0 <= pr[j] <= 100)
      && (forall j :: 0 < j < |pr| ==> pr[j] != pr[j - 1])
      && (forall j :: 0 <= j < |pr| ==> PercentOfSomePacket(context, packets, pr[j]))
      && (context.duration <= 0 ==> pr == [])
  {
    var k := SlicesConverted(results, stopAt);
    var packets := PacketsRead(results)[..k];
    var inputs := Inputs(context, packets);
    var st := ScanFold(inputs);
    ScanFoldProgress(inputs);
    FlushKeepsProgress(st.events, st.buffer);
    PercentSources(context, packets, Progresses(st.events));
  }

  /** The flush after the loop emits no progress value. */
  lemma FlushKeepsProgress(events: seq<ParserEvent>, buffer: seq<SliceInfo>)
    ensures Progresses(events + (if buffer != [] then [SlicesParsed(buffer)] else [])) == Progresses(events)
  {
    var flush := if buffer != [] then [SlicesParsed(buffer)] else [];
    BatchesAppend(events, flush);
    if buffer != [] {
      SingleEvent(SlicesParsed(buffer));
    }
  }

  /** A percentage computed for one of `packets` comes from a packet with a positive pts
      under a positive duration. */
  lemma PercentSources(context: FormatContext, packets: seq<Packet>, pr: seq<int>)
    requires forall j :: 0 <= j < |pr| ==>
               exists i :: 0 <= i < |packets| && Inputs(context, packets)[i].percent == Some(pr[j])
    ensures forall j :: 0 <= j < |pr| ==> PercentOfSomePacket(context, packets, pr[j])
  {
    forall j | 0 <= j < |pr|
      ensures PercentOfSomePacket(context, packets, pr[j])
    {
      var i :| 0 <= i < |packets| && Inputs(context, packets)[i].percent == Some(pr[j]);
      assert Inputs(context, packets)[i] == InputOf(context, packets[i]);
    }
  }

  /** `v` is the percentage of one of `packets` (which needs a positive pts and a positive
      duration). */
  predicate PercentOfSomePacket(context: FormatContext, packets: seq<Packet>, v: int)
  {
    exists i :: 0 <= i < |packets| && packets[i].pts > 0 && context.duration > 0
                && v == ProgressPercent(packets[i].pts, context.duration)
  }

  /** The events of the scan are only slice batches and progress values. */
  lemma ScanEventsKinds(context: FormatContext, results: seq<ReadResult>, stopAt: Option<nat>)
    ensures forall e :: e in ScanEvents(context, results, stopAt) ==> e.SlicesParsed? || e.ParsingProgress?
  {
    ScanFoldKinds(Inputs(context, PacketsRead(results)[..SlicesConverted(results, stopAt)]));
  }

  /** A failing read ends the loop exactly like end of file: cutting the read results at
      the first failure changes nothing. */
  lemma ReadFailureEndsLikeEndOfFile(context: FormatContext, results: seq<ReadResult>, stopAt: Option<nat>)
    ensures var cut := results[..FramesRead(results)];
      && FramesRead(cut) == FramesRead(results)
      && PacketsRead(cut) == PacketsRead(results)
      && StoppedAfterScan(cut, stopAt) == StoppedAfterScan(results, stopAt)
      && ScanEvents(context, cut, stopAt) == ScanEvents(context, results, stopAt)
  {
    FramesReadAllFrames(results[..FramesRead(results)]);
  }

  lemma {:induction false} FramesReadAllFrames(results: seq<ReadResult>)
    requires forall i :: 0 <= i < |results| ==> results[i].Frame?
    ensures FramesRead(results) == |results|
    decreases |results|
  {
    if results != [] {
      FramesReadAllFrames(results[1..]);
    }
  }

  // ---------------------------------------------------------------------------
  // The whole of startParsing

  /** Everything startParsing emits for the path it was given, the outcome of opening it,
      the read results and the stop oracle. */
  function StartParsingTrace(path: string, outcome: OpenOutcome, results: seq<ReadResult>, stopAt: Option<nat>): (trace: seq<ParserEvent>)
    ensures ParsingFinished in trace <==> path != "" && outcome.Opened? && !StoppedAfterScan(results, stopAt)
    ensures path == "" || !outcome.Opened? ==> forall e :: e in trace ==> e.ParserError?
    ensures path != "" && outcome.Opened? ==>
              forall e :: e in trace ==> !e.ParserError?
    ensures ParsingFinished in trace ==>
              |trace| >= 2 && trace[|trace| - 1] == ParsingFinished && trace[|trace| - 2] == ParsingProgress(100)
    ensures ParsingFinished in trace ==> ParsingFinished !in trace[..|trace| - 1]
  {
    if path == "" then [ParserError(OPEN_FAILED_MESSAGE)]
    else
      match outcome
      case OpenInputFailed(reason) =>
        [ParserError("Could not open input file for parsing: " + reason), ParserError(OPEN_FAILED_MESSAGE)]
      case StreamInfoFailed(_, reason) =>
        [ParserError("Could not find stream information for parsing: " + reason), ParserError(OPEN_FAILED_MESSAGE)]
      case Opened(context) =>
        ScanEventsKinds(context, results, stopAt);
        FinishedTail(ScanEvents(context, results, stopAt), StoppedAfterScan(results, stopAt));
        ScanEvents(context, results, stopAt)
          + (if StoppedAfterScan(results, stopAt) then [] else [ParsingProgress(100), ParsingFinished])
  }

  /** The scan's signals (slices and progress only), followed by the final 100 and
      finished unless stopped: finished appears exactly when not stopped, once, as the last
      signal right after the 100, and no error appears. */
  lemma FinishedTail(scan: seq<ParserEvent>, stopped: bool)
    requires forall e :: e in scan ==> e.SlicesParsed? || e.ParsingProgress?
    ensures var trace := scan + (if stopped then [] else [ParsingProgress(100), ParsingFinished]);
      && (ParsingFinished in trace <==> !stopped)
      && (forall e :: e in trace ==> !e.ParserError?)
      && (!stopped ==> |trace| >= 2 && trace[|trace| - 1] == ParsingFinished && trace[|trace| - 2] == ParsingProgress(100))
      && (!stopped ==> ParsingFinished !in trace[..|trace| - 1])
  {
    if !stopped {
      var trace := scan + [ParsingProgress(100), ParsingFinished];
      assert trace[..|trace| - 1] == scan + [ParsingProgress(100)];
    }
  }

  /** The progress part of the loop body: the value to emit for a packet's pts, if any. */
  method ReportProgress(totalDuration: int64, currentTime: int64, lastProgress: int) returns (emitted: Option<int>)
    ensures emitted == EmittedProgress(PacketPercent(totalDuration, currentTime), lastProgress)
  {
    emitted := None;
    if totalDuration > 0 {
      if currentTime > 0 {
        var progress := ProgressPercent(currentTime, totalDuration);
        if progress != lastProgress && 0 <= progress <= 100 {
          emitted := Some(progress as int);
        }
      }
    }
  }

  /** The loop body for one packet that was read and not stopped: its slice joins the
      pending list, a progress value may be emitted, and a full list is emitted. */
  method ConvertPacket(context: FormatContext, packet: Packet, slices: seq<SliceInfo>, lastProgress: int,
                       events: seq<ParserEvent>)
    returns (slices': seq<SliceInfo>, lastProgress': int, events': seq<ParserEvent>)
    ensures ScanState(slices', lastProgress', events')
            == ScanStep(ScanState(slices, lastProgress, events), InputOf(context, packet))
  {
    var totalDuration := context.duration;
    slices', lastProgress', events' := slices + [CreateSliceInfo(Some(context), packet, packet.streamIndex)], lastProgress, events;
    var progress := ReportProgress(totalDuration, packet.pts, lastProgress');
    if progress.Some? {
      events' := events' + [ParsingProgress(progress.value)];
      lastProgress' := progress.value;
    }
    if |slices'| >= BATCH_THRESHOLD {
      events' := events' + [SlicesParsed(slices')];
      slices' := [];
    }
  }

  /** The scan loop of startParsing and the flush after it, for an opened context. */
  method ScanPackets(context: FormatContext, results: seq<ReadResult>, stopAt: Option<nat>)
    returns (events: seq<ParserEvent>)
    ensures events == ScanEvents(context, results, stopAt)
  {
    var slices: seq<SliceInfo> := [];
    var lastProgress := -1;
    events := [];
    ghost var inputs := Inputs(context, PacketsRead(results));
    var i := 0;
    while ReadFrame(results, i).Frame?
      invariant i <= SlicesConverted(results, stopAt) <= |inputs| == FramesRead(results)
      invariant ScanState(slices, lastProgress, events) == ScanFold(inputs[..i])
      decreases FramesRead(results) - i
    {
      var packet := ReadFrame(results, i).packet;
      if stopAt == Some(i) {
        break;
      }
      PrefixSnoc(inputs, i);
      assert inputs[i] == InputOf(context, packet);
      slices, lastProgress, events := ConvertPacket(context, packet, slices, lastProgress, events);
      i := i + 1;
    }
    assert i == SlicesConverted(results, stopAt);
    ScanEventsOfLoop(context, results, stopAt, ScanState(slices, lastProgress, events));
    if slices != [] {
      events := events + [SlicesParsed(slices)];
    }
  }

  /** ScanEvents in terms of the loop state reached over the prefix of all the iterations. */
  lemma ScanEventsOfLoop(context: FormatContext, results: seq<ReadResult>, stopAt: Option<nat>, st: ScanState)
    requires st == ScanFold(Inputs(context, PacketsRead(results))[..SlicesConverted(results, stopAt)])
    ensures ScanEvents(context, results, stopAt) == st.events + (if st.buffer != [] then [SlicesParsed(st.buffer)] else [])
  {
    var packets := PacketsRead(results);
    var k := SlicesConverted(results, stopAt);
    assert Inputs(context, packets)[..k] == Inputs(context, packets[..k]);
  }

  /** MediaParserThread: the file path, the stop flag and the parse context. */
  class MediaParserThread {
    var filePath: string
    var stopRequested: bool
    var parseContext: Option<FormatContext>

    constructor ()
      ensures filePath == "" && !stopRequested && parseContext == None
    {
      filePath := "";
      stopRequested := false;
      parseContext := None;
    }

    method SetFilePath(path: string)
      modifies this
      ensures filePath == path
      ensures stopRequested == old(stopRequested) && parseContext == old(parseContext)
    {
      filePath := path;
    }

    method RequestStop()
      modifies this
      ensures stopRequested
      ensures filePath == old(filePath) && parseContext == old(parseContext)
    {
      stopRequested := true;
    }

    method IsStopped() returns (stopped: bool)
      ensures stopped == stopRequested
    {
      stopped := stopRequested;
    }

    /** openFile: fails without a path; otherwise opens the container and reads its stream
        information, emitting an error for either failure. After a stream-information
        failure the context stays open. */
    method OpenFile(outcome: OpenOutcome) returns (ok: bool, events: seq<ParserEvent>)
      modifies this
      ensures filePath == old(filePath) && stopRequested == old(stopRequested)
      ensures ok <==> filePath != "" && outcome.Opened?
      ensures filePath == "" ==> events == [] && parseContext == old(parseContext)
      ensures filePath != "" ==> match outcome
        case OpenInputFailed(reason) =>
          parseContext == None && events == [ParserError("Could not open input file for parsing: " + reason)]
        case StreamInfoFailed(context, reason) =>
          parseContext == Some(context) && events == [ParserError("Could not find stream information for parsing: " + reason)]
        case Opened(context) =>
          parseContext == Some(context) && events == []
    {
      events := [];
      if filePath == "" {
        return false, events;
      }
      match outcome
      case OpenInputFailed(reason) =>
        parseContext := None;
        events := [ParserError("Could not open input file for parsing: " + reason)];
        ok := false;
      case StreamInfoFailed(context, reason) =>
        parseContext := Some(context);
        events := [ParserError("Could not find stream information for parsing: " + reason)];
        ok := false;
      case Opened(context) =>
        parseContext := Some(context);
        ok := true;
    }

    /** closeFile: releases the context if there is one; nothing otherwise. */
    method CloseFile()
      modifies this
      ensures parseContext == None
      ensures filePath == old(filePath) && stopRequested == old(stopRequested)
    {
      if parseContext.Some? {
        parseContext := None;
      }
    }

    /** startParsing: clears the stop flag, opens the file, scans it, flushes the pending
        slices, closes the context and reports completion unless a stop was seen. */
    method StartParsing(outcome: OpenOutcome, results: seq<ReadResult>, stopAt: Option<nat>)
      returns (events: seq<ParserEvent>)
      modifies this
      ensures events == StartParsingTrace(old(filePath), outcome, results, stopAt)
      ensures filePath == old(filePath)
      ensures old(filePath) != "" && outcome.Opened? ==>
                parseContext == None && stopRequested == StoppedAfterScan(results, stopAt)
      ensures old(filePath) != "" && outcome.StreamInfoFailed? ==> parseContext == Some(outcome.context)
      ensures old(filePath) != "" && outcome.OpenInputFailed? ==> parseContext == None
      ensures old(filePath) == "" ==> parseContext == old(parseContext)
      ensures !(old(filePath) != "" && outcome.Opened?) ==> !stopRequested
    {
      stopRequested := false;
      var ok, openEvents := OpenFile(outcome);
      if !ok {
        events := openEvents + [ParserError(OPEN_FAILED_MESSAGE)];
        return;
      }
      events := ScanPackets(parseContext.value, results, stopAt);
      // the stop flag as the call after the loop reads it
      stopRequested := StoppedAfterScan(results, stopAt);
      CloseFile();
      var stopped := IsStopped();
      if !stopped {
        events := events + [ParsingProgress(100), ParsingFinished];
      }
    }
  }
}
