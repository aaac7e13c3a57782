/** The chunk queue between the real-time capture callbacks and the storage engine:
    a FIFO drained one send at a time, a chunk counter per track advanced before each
    send, a running byte total, and a first-error-wins rule that poisons the queue.
    Each drain runs to completion against the transport's answers, given in order as
    an oracle sequence. Payloads are raw PCM bytes (the base64 text encoding is left
    out: it preserves the payload). */
module ChunkWriter {
  import opened Bytes
  import opened RecordingTypes

  /** The single reason code the error callback receives. */
  const ChunkWriteFailed: string := "chunk_write_failed"

  /** One buffered chunk waiting to be sent. */
  datatype QueueEntry = QueueEntry(sessionId: string, trackKind: TrackKind, payload: seq<Byte>)

  /** What one `saveChunk` call is given. */
  datatype ChunkData = ChunkData(sessionId: string, trackKind: TrackKind, chunkIndex: nat, payload: seq<Byte>)

  /** The transport's answer to one send: a resolved response, or a rejection (the
      call threw). */
  datatype Response = Resolved(success: bool, bytesWritten: int) | Rejected

  predicate IsFailure(r: Response) {
    r.Rejected? || !r.success
  }

  /** The writer's state. `chunkIndices` holds, per track, the index the next chunk of
      that track will get (`getChunkCounts`); `totalBytes` is `getTotalBytes`. */
  datatype Writer = Writer(
    queue: seq<QueueEntry>,
    errored: bool,
    chunkIndices: map<TrackKind, nat>,
    totalBytes: int)

  /** A freshly constructed or reset writer. */
  const Fresh: Writer := Writer([], false, map[], 0)

  /** Once errored the queue stays empty: the failure empties it and enqueue drops input. */
  predicate Valid(w: Writer) {
    w.errored ==> |w.queue| == 0
  }

  /** The next chunk index of a track (`chunkIndices.get(kind) ?? 0`). */
  function NextIndex(indices: map<TrackKind, nat>, k: TrackKind): nat {
    if k in indices then indices[k] else 0
  }

  /** What a drain did: the writer afterwards, the sends made in order, and the
      reasons passed to `onError`. */
  datatype Drained = Drained(writer: Writer, sent: seq<ChunkData>, errors: seq<string>)

  /** `processQueue`: while entries remain and the writer is not errored, take the
      first entry, advance its track's counter, send it with the previous counter value,
      and either add the reported bytes or, on a failed or rejected send, mark the writer
      errored, empty the queue, report once and stop. `responses[i]` answers the i-th
      send of this drain. */
  function Drain(w: Writer, responses: seq<Response>): (r: Drained)
    requires w.errored || |responses| >= |w.queue|
    ensures |r.sent| <= |w.queue|
    ensures !w.errored ==> r.writer.queue == []
    ensures w.errored ==> r == Drained(w, [], [])
    ensures r.errors == [] || r.errors == [ChunkWriteFailed]
    ensures r.errors != [] ==> r.writer.errored
    ensures !w.errored && r.errors == [] ==> !r.writer.errored && |r.sent| == |w.queue|
    decreases |w.queue|
  {
    if |w.queue| == 0 || w.errored then Drained(w, [], [])
    else
      var entry := w.queue[0];
      var index := NextIndex(w.chunkIndices, entry.trackKind);
      var counted := w.(queue := w.queue[1..], chunkIndices := w.chunkIndices[entry.trackKind := index + 1]);
      var data := ChunkData(entry.sessionId, entry.trackKind, index, entry.payload);
      var response := responses[0];
      if IsFailure(response) then
        Drained(counted.(errored := true, queue := []), [data], [ChunkWriteFailed])
      else
        var rest := Drain(counted.(totalBytes := w.totalBytes + response.bytesWritten), responses[1..]);
        Drained(rest.writer, [data] + rest.sent, rest.errors)
  }

  /** `enqueue` when no drain is running: unless errored, append the entry and drain. */
  function Enqueue(w: Writer, entry: QueueEntry, responses: seq<Response>): (r: Drained)
    requires w.errored || |responses| >= |w.queue| + 1
    ensures w.errored ==> r == Drained(w, [], [])
    ensures !w.errored ==> r.writer.queue == []
    ensures !w.errored && r.errors == [] ==>
      && |r.sent| == |w.queue| + 1
      && r.sent[|w.queue|].sessionId == entry.sessionId
      && r.sent[|w.queue|].trackKind == entry.trackKind
      && r.sent[|w.queue|].payload == entry.payload
  {
    if w.errored then Drained(w, [], [])
    else
      var w1 := w.(queue := w.queue + [entry]);
      DrainSendsInOrder(w1, responses);
      Drain(w1, responses)
  }

  /** `enqueue` while a drain is already running: unless errored, the entry is only
      appended; the running drain will send it. */
  function Push(w: Writer, entry: QueueEntry): (r: Writer)
    ensures r.errored == w.errored && r.chunkIndices == w.chunkIndices && r.totalBytes == w.totalBytes
    ensures w.errored ==> r == w
    ensures !w.errored ==> r.queue == w.queue + [entry]
  {
    if w.errored then w else w.(queue := w.queue + [entry])
  }

  /** `flush`: drain whatever is queued. */
  function Flush(w: Writer, responses: seq<Response>): (r: Drained)
    requires w.errored || |responses| >= |w.queue|
    ensures w.errored ==> r == Drained(w, [], [])
    ensures !w.errored ==> r.writer.queue == [] && |r.sent| <= |w.queue|
  {
    Drain(w, responses)
  }

  /** `reset`: empty queue, not errored, no counters, zero bytes. */
  function Reset(w: Writer): (r: Writer)
    ensures Valid(r) && r.queue == [] && !r.errored && r.chunkIndices == map[] && r.totalBytes == 0
  {
    Fresh
  }

  // ---------------------------------------------------------------------------
  // What a drain does, stated over the queue it starts from

  /** The number of entries of track k in q. */
  function Count(q: seq<QueueEntry>, k: TrackKind): nat {
    if |q| == 0 then 0 else (if q[0].trackKind == k then 1 else 0) + Count(q[1..], k)
  }

  /** The sum of the bytes reported by the successful responses in rs. */
  function SuccessBytes(rs: seq<Response>): int {
    if |rs| == 0 then 0
    else (if IsFailure(rs[0]) then 0 else rs[0].bytesWritten) + SuccessBytes(rs[1..])
  }

  /** A drain sends the queued entries in queue order, each with its own session,
      track and payload. */
  lemma DrainSendsInOrder(w: Writer, responses: seq<Response>)
    requires |responses| >= |w.queue| && !w.errored
    ensures var r := Drain(w, responses);
      forall i :: 0 <= i < |r.sent| ==>
        && r.sent[i].sessionId == w.queue[i].sessionId
        && r.sent[i].trackKind == w.queue[i].trackKind
        && r.sent[i].payload == w.queue[i].payload
  {
    forall i | 0 <= i < |Drain(w, responses).sent|
      ensures Drain(w, responses).sent[i].sessionId == w.queue[i].sessionId
      ensures Drain(w, responses).sent[i].trackKind == w.queue[i].trackKind
      ensures Drain(w, responses).sent[i].payload == w.queue[i].payload
    {
      DrainSendAt(w, responses, i);
    }
  }

  /** The i-th send of a drain carries the i-th queued entry. */
  lemma {:induction false} DrainSendAt(w: Writer, responses: seq<Response>, i: nat)
    requires |responses| >= |w.queue| && !w.errored
    requires i < |Drain(w, responses).sent|
    ensures Drain(w, responses).sent[i].sessionId == w.queue[i].sessionId
    ensures Drain(w, responses).sent[i].trackKind == w.queue[i].trackKind
    ensures Drain(w, responses).sent[i].payload == w.queue[i].payload
    decreases i
  {
    if i > 0 {
      var next := DrainStep(w, responses[0]);
      assert Drain(w, responses).sent[i] == Drain(next, responses[1..]).sent[i - 1];
      DrainSendAt(next, responses[1..], i - 1);
      assert next.queue[i - 1] == w.queue[i];
    }
  }

  lemma {:induction false} DrainStopsAtFailure(w: Writer, responses: seq<Response>)
    requires |responses| >= |w.queue| && !w.errored
    ensures var r := Drain(w, responses);
      && (forall i :: 0 <= i < |r.sent| - 1 ==> !IsFailure(responses[i]))
      && (r.errors != [] <==> |r.sent| > 0 && IsFailure(responses[|r.sent| - 1]))
      && (|r.sent| < |w.queue| ==> r.errors != [])
    decreases |w.queue|
  {
    if |w.queue| > 0 && !IsFailure(responses[0]) {
      var next := DrainStep(w, responses[0]);
      DrainStopsAtFailure(next, responses[1..]);
      assert forall i :: 1 <= i < |responses| ==> responses[1..][i - 1] == responses[i];
    }
  }

  /** The writer a drain continues with after a successful send of the head entry. */
  function DrainStep(w: Writer, response: Response): Writer
    requires |w.queue| > 0 && response.Resolved?
  {
    var entry := w.queue[0];
    var index := NextIndex(w.chunkIndices, entry.trackKind);
    w.(queue := w.queue[1..], chunkIndices := w.chunkIndices[entry.trackKind := index + 1],
       totalBytes := w.totalBytes + response.bytesWritten)
  }

  /** Chunk indices: the i-th send carries its track's counter plus the number of
      earlier entries of that track in the same drain, so each track counts 0, 1, 2, …
      on its own, whatever the other tracks do. */
  lemma DrainChunkIndices(w: Writer, responses: seq<Response>)
    requires |responses| >= |w.queue| && !w.errored
    ensures var r := Drain(w, responses);
      forall i :: 0 <= i < |r.sent| ==>
        r.sent[i].chunkIndex
          == NextIndex(w.chunkIndices, w.queue[i].trackKind) + Count(w.queue[..i], w.queue[i].trackKind)
  {
    forall i | 0 <= i < |Drain(w, responses).sent|
      ensures Drain(w, responses).sent[i].chunkIndex
        == NextIndex(w.chunkIndices, w.queue[i].trackKind) + Count(w.queue[..i], w.queue[i].trackKind)
    {
      DrainChunkIndex(w, responses, i);
    }
  }

  /** The chunk index of the i-th send of a drain. */
  lemma {:induction false} DrainChunkIndex(w: Writer, responses: seq<Response>, i: nat)
    requires |responses| >= |w.queue| && !w.errored
    requires i < |Drain(w, responses).sent|
    ensures Drain(w, responses).sent[i].chunkIndex
      == NextIndex(w.chunkIndices, w.queue[i].trackKind) + Count(w.queue[..i], w.queue[i].trackKind)
    decreases i
  {
    if i == 0 {
      assert w.queue[..0] == [];
    } else {
      var k := w.queue[i].trackKind;
      var next := DrainStep(w, responses[0]);
      var rest := Drain(next, responses[1..]);
      assert Drain(w, responses).sent[i] == rest.sent[i - 1];
      DrainChunkIndex(next, responses[1..], i - 1);
      assert next.queue[i - 1] == w.queue[i];
      CountStep(w.queue, i, k);
    }
  }

  /** Counting a prefix: the head entry, then the rest of the prefix. */
  lemma CountStep(q: seq<QueueEntry>, i: nat, k: TrackKind)
    requires 0 < i <= |q|
    ensures Count(q[..i], k) == (if q[0].trackKind == k then 1 else 0) + Count(q[1..][..i - 1], k)
  {
    assert q[..i][1..] == q[1..][..i - 1];
  }

  /** The counters are advanced before each send: after a drain every track's counter
      has grown by the number of its entries taken from the queue, the failed send
      included, and `getChunkCounts` reports them. */
  lemma {:induction false} DrainCounters(w: Writer, responses: seq<Response>, k: TrackKind)
    requires |responses| >= |w.queue| && !w.errored
    ensures var r := Drain(w, responses);
      NextIndex(r.writer.chunkIndices, k) == NextIndex(w.chunkIndices, k) + Count(w.queue[..|r.sent|], k)
    decreases |w.queue|
  {
    var r := Drain(w, responses);
    if |w.queue| == 0 {
      assert w.queue[..0] == [];
    } else {
      CountStep(w.queue, |r.sent|, k);
      if IsFailure(responses[0]) {
        assert w.queue[1..][..0] == [];
      } else {
        var next := DrainStep(w, responses[0]);
        DrainCounters(next, responses[1..], k);
        var rest := Drain(next, responses[1..]);
        assert r.writer == rest.writer && |r.sent| == |rest.sent| + 1;
      }
    }
  }

  /** The byte total grows by exactly the bytes the successful responses reported; a
      failed response adds nothing. */
  lemma {:induction false} DrainTotalBytes(w: Writer, responses: seq<Response>)
    requires |responses| >= |w.queue| && !w.errored
    ensures var r := Drain(w, responses);
      r.writer.totalBytes == w.totalBytes + SuccessBytes(responses[..|r.sent|])
    decreases |w.queue|
  {
    var r := Drain(w, responses);
    if |w.queue| == 0 {
      assert responses[..0] == [];
    } else if IsFailure(responses[0]) {
      assert responses[..1][1..] == [];
    } else {
      var entry := w.queue[0];
      var index := NextIndex(w.chunkIndices, entry.trackKind);
      var next := w.(queue := w.queue[1..], chunkIndices := w.chunkIndices[entry.trackKind := index + 1],
                     totalBytes := w.totalBytes + responses[0].bytesWritten);
      DrainTotalBytes(next, responses[1..]);
      var rest := Drain(next, responses[1..]);
      assert responses[..|r.sent|][1..] == responses[1..][..|rest.sent|];
    }
  }

  /** Once errored the writer is inert: enqueue drops its input, flush sends nothing,
      and nobody is told anything. */
  lemma ErroredIsInert(w: Writer, entry: QueueEntry, responses: seq<Response>)
    requires Valid(w) && w.errored
    ensures Push(w, entry) == w
    ensures Enqueue(w, entry, responses) == Drained(w, [], [])
    ensures Flush(w, responses) == Drained(w, [], [])
  {
  }

  // ---------------------------------------------------------------------------
  // Between resets

  /** One client call: `enqueue` with no drain running (answered by `responses`),
      `enqueue` while a drain runs, or `flush`. */
  datatype Op =
    | EnqueueOp(entry: QueueEntry, responses: seq<Response>)
    | PushOp(entry: QueueEntry)
    | FlushOp(responses: seq<Response>)

  /** The oracle answers every send the call can make. */
  predicate Answered(w: Writer, op: Op) {
    match op
    case EnqueueOp(_, rs) => w.errored || |rs| >= |w.queue| + 1
    case PushOp(_) => true
    case FlushOp(rs) => w.errored || |rs| >= |w.queue|
  }

  function Apply(w: Writer, op: Op): Drained
    requires Answered(w, op)
  {
    match op
    case EnqueueOp(e, rs) => Enqueue(w, e, rs)
    case PushOp(e) => Drained(Push(w, e), [], [])
    case FlushOp(rs) => Flush(w, rs)
  }

  predicate AllAnswered(w: Writer, ops: seq<Op>)
    decreases |ops|
  {
    |ops| == 0 || (Answered(w, ops[0]) && AllAnswered(Apply(w, ops[0]).writer, ops[1..]))
  }

  /** The calls in order, with every send and every error report they cause. */
  function Run(w: Writer, ops: seq<Op>): Drained
    requires AllAnswered(w, ops)
    decreases |ops|
  {
    if |ops| == 0 then Drained(w, [], [])
    else
      var first := Apply(w, ops[0]);
      var rest := Run(first.writer, ops[1..]);
      Drained(rest.writer, first.sent + rest.sent, first.errors + rest.errors)
  }

  /** Every call keeps the writer valid, reports at most once, and is errored
      afterwards whenever it reported. */
  lemma ApplyReportsAtMostOnce(w: Writer, op: Op)
    requires Valid(w) && Answered(w, op)
    ensures var r := Apply(w, op);
      && Valid(r.writer)
      && (r.errors == [] || r.errors == [ChunkWriteFailed])
      && (r.errors != [] ==> r.writer.errored)
      && (w.errored ==> r == Drained(w, [], []))
  {
  }

  /** First error wins: between resets the error callback fires at most once, and once
      the writer is errored no call sends or reports anything. */
  lemma {:induction false} RunReportsAtMostOnce(w: Writer, ops: seq<Op>)
    requires Valid(w) && AllAnswered(w, ops)
    ensures var r := Run(w, ops);
      && Valid(r.writer)
      && |r.errors| <= 1
      && (r.errors != [] ==> r.writer.errored)
      && (w.errored ==> r == Drained(w, [], []))
    decreases |ops|
  {
    if |ops| > 0 {
      var first := Apply(w, ops[0]);
      ApplyReportsAtMostOnce(w, ops[0]);
      RunReportsAtMostOnce(first.writer, ops[1..]);
    }
  }

  /** After a call sequence that reported an error, any further calls send nothing and
      report nothing. */
  lemma NothingFollowsTheFailure(w: Writer, before: seq<Op>, after: seq<Op>)
    requires Valid(w) && AllAnswered(w, before)
    requires Run(w, before).errors != []
    requires AllAnswered(Run(w, before).writer, after)
    ensures Run(Run(w, before).writer, after).sent == []
    ensures Run(Run(w, before).writer, after).errors == []
  {
    RunReportsAtMostOnce(w, before);
    RunReportsAtMostOnce(Run(w, before).writer, after);
  }
}
