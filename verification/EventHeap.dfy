/**
 The heap of simulator events: ordered by (timestamp, sequence number), the sequence number
 being handed out in order of insertion. Read as a queue of timed events it is the stable queue.
 */
module EventHeap {
  import opened OrderBook
  import opened TradingDesk

  datatype SimEvent = SimEvent(timestampMs: Millis, seqNo: nat, payload: Payload)

  predicate Before(a: SimEvent, b: SimEvent) {
    a.timestampMs < b.timestampMs || (a.timestampMs == b.timestampMs && a.seqNo < b.seqNo)
  }

  /** Strictly ordered, all sequence numbers below the counter. */
  ghost predicate Heap(heap: seq<SimEvent>, counter: nat) {
    && (forall i, j :: 0 <= i < j < |heap| ==> Before(heap[i], heap[j]))
    && (forall i :: 0 <= i < |heap| ==> heap[i].seqNo < counter)
  }

  function Bare(e: SimEvent): Timed {
    Timed(e.timestampMs, e.payload)
  }

  function Queued(heap: seq<SimEvent>): seq<Timed> {
    seq(|heap|, i requires 0 <= i < |heap| => Bare(heap[i]))
  }

  function Numbers(heap: seq<SimEvent>): (r: seq<nat>)
    ensures |r| == |heap|
  {
    seq(|heap|, i requires 0 <= i < |heap| => heap[i].seqNo)
  }

  lemma {:induction false} NumberAt(queue: seq<Timed>, numbers: seq<nat>, ts: Millis, n: nat, k: nat)
    requires k <= |queue| == |numbers|
    requires forall i :: 0 <= i < k ==> queue[i].ts <= ts
    requires k < |queue| ==> ts < queue[k].ts
    ensures NumberIn(queue, numbers, ts, n) == numbers[..k] + [n] + numbers[k..]
  {
    if k > 0 {
      assert queue[0].ts <= ts;
      NumberAt(queue[1..], numbers[1..], ts, n, k - 1);
      assert numbers[..k] == [numbers[0]] + numbers[1..][..k - 1] && numbers[k..] == numbers[1..][k - 1..];
    } else {
      assert numbers[..0] + [n] + numbers[0..] == [n] + numbers;
    }
  }

  lemma {:induction false} EnqueueAt(queue: seq<Timed>, e: Timed, k: nat)
    requires k <= |queue|
    requires forall i :: 0 <= i < k ==> queue[i].ts <= e.ts
    requires k < |queue| ==> e.ts < queue[k].ts
    ensures Enqueue(queue, e) == queue[..k] + [e] + queue[k..]
  {
    if k > 0 {
      assert queue[0].ts <= e.ts;
      EnqueueAt(queue[1..], e, k - 1);
      assert queue[..k] == [queue[0]] + queue[1..][..k - 1] && queue[k..] == queue[1..][k - 1..];
    } else {
      assert queue[..0] + [e] + queue[0..] == [e] + queue;
    }
  }

  lemma Inserted(heap: seq<SimEvent>, e: SimEvent, k: nat)
    requires Heap(heap, e.seqNo) && k <= |heap|
    requires forall i :: k <= i < |heap| ==> Before(e, heap[i])
    requires k > 0 ==> !Before(e, heap[k - 1])
    ensures Heap(heap[..k] + [e] + heap[k..], e.seqNo + 1)
    ensures Queued(heap[..k] + [e] + heap[k..]) == Enqueue(Queued(heap), Bare(e))
    ensures Numbers(heap[..k] + [e] + heap[k..]) == NumberIn(Queued(heap), Numbers(heap), e.timestampMs, e.seqNo)
  {
    hide Enqueue, NumberIn;
    forall i | 0 <= i < k ensures heap[i].timestampMs <= e.timestampMs && Before(heap[i], e) {
      if i < k - 1 { assert Before(heap[i], heap[k - 1]); }
    }
    EnqueueAt(Queued(heap), Bare(e), k);
    assert Queued(heap[..k] + [e] + heap[k..]) == Queued(heap)[..k] + [Bare(e)] + Queued(heap)[k..];
    NumberAt(Queued(heap), Numbers(heap), e.timestampMs, e.seqNo, k);
    assert Numbers(heap[..k] + [e] + heap[k..]) == Numbers(heap)[..k] + [e.seqNo] + Numbers(heap)[k..];
  }

  /** `heappush` of an event that carries the next sequence number. */
  method Push(heap: seq<SimEvent>, e: SimEvent) returns (after: seq<SimEvent>)
    requires Heap(heap, e.seqNo)
    ensures Heap(after, e.seqNo + 1)
    ensures Queued(after) == Enqueue(Queued(heap), Bare(e))
    ensures Numbers(after) == NumberIn(Queued(heap), Numbers(heap), e.timestampMs, e.seqNo)
    ensures forall x :: x in after <==> x in heap || x == e
  {
    var k := |heap|;
    while k > 0 && Before(e, heap[k - 1])
      invariant 0 <= k <= |heap|
      invariant forall i :: k <= i < |heap| ==> Before(e, heap[i])
    {
      k := k - 1;
    }
    after := heap[..k] + [e] + heap[k..];
    Inserted(heap, e, k);
    assert heap == heap[..k] + heap[k..];
  }

  /** `heappop`: the least event, and the rest. */
  method Pop(heap: seq<SimEvent>, ghost counter: nat) returns (e: SimEvent, after: seq<SimEvent>)
    requires heap != [] && Heap(heap, counter)
    ensures Heap(after, counter) && Queued(heap) == [Bare(e)] + Queued(after)
            && Numbers(heap) == [e.seqNo] + Numbers(after)
    ensures e in heap && forall x :: x in after ==> x in heap && Before(e, x)
  {
    e, after := heap[0], heap[1..];
    assert forall i :: 0 <= i < |after| ==> after[i] == heap[i + 1];
  }
}
