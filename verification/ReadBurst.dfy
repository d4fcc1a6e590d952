/** The consumer's transmit thread: a READ request for many segments is served in bursts of at most
    32 Interests; after a burst the request, moved on, goes back to the end of the ring. */
module ReadBurst {
  import opened Bytes

  const MAX_BURST: nat := 32

  /** `ConsumerTxRequest`; `start`, `count` and `sent` remember what was asked for and which
      offsets have gone out. */
  class ReadRequest {
    var npkts: nat
    var off: nat
    ghost const start: nat
    ghost const count: nat
    ghost var sent: seq<nat>

    constructor (off: nat, npkts: nat)
      ensures start == off && count == npkts && this.off == off && this.npkts == npkts && sent == []
      ensures Valid()
    {
      this.off, this.npkts := off, npkts;
      start, count, sent := off, npkts, [];
    }

    /** What has gone out is exactly the first segments of the request, each once and in order. */
    ghost predicate Valid()
      reads this
    {
      npkts <= count && off == start + (count - npkts) * MAX_PAYLOAD && sent == Offsets(start, count - npkts)
    }

    ghost predicate Complete()
      reads this
    {
      npkts == 0 && sent == Offsets(start, count)
    }
  }

  function Offsets(start: nat, n: nat): (offsets: seq<nat>)
    ensures |offsets| == n && forall k :: 0 <= k < n ==> offsets[k] == start + k * MAX_PAYLOAD
  {
    seq(n, k => start + k * MAX_PAYLOAD)
  }

  class ConsumerTx {
    var requestQueue: seq<ReadRequest>
    var nInterest: nat
    var errors: nat

    constructor ()
      ensures requestQueue == [] && nInterest == 0 && errors == 0
    {
      requestQueue, nInterest, errors := [], 0, 0;
    }

    /** Requests in the ring are distinct, sound and have something left to send. */
    ghost predicate Valid()
      reads this, requestQueue
    {
      && (forall k :: 0 <= k < |requestQueue| ==> requestQueue[k].Valid() && requestQueue[k].npkts > 0)
      && (forall i, k :: 0 <= i < k < |requestQueue| ==> requestQueue[i] != requestQueue[k])
    }

    method Enqueue(req: ReadRequest)
      requires Valid() && req.Valid() && req.npkts > 0 && req !in requestQueue
      modifies this`requestQueue
      ensures Valid() && requestQueue == old(requestQueue) + [req]
    {
      requestQueue := requestQueue + [req];
    }

    /** One burst; `buffers` says whether there were buffers for it.  Without buffers the request
        is dropped, its segments unsent. */
    method ExpressReadInterests(req: ReadRequest, buffers: bool)
      requires Valid() && req.Valid() && req.npkts > 0 && req !in requestQueue
      modifies this, req
      ensures Valid()
      ensures buffers ==> req.Valid() && req.npkts == (if old(req.npkts) > 32 then old(req.npkts) - 32 else 0)
      ensures buffers ==> nInterest == old(nInterest) + (old(req.npkts) - req.npkts) && errors == old(errors)
      ensures buffers ==> (req.Complete() <==> old(req.npkts) <= 32)
      ensures buffers ==> requestQueue == if req.Complete() then old(requestQueue) else old(requestQueue) + [req]
      ensures !buffers ==> requestQueue == old(requestQueue) && req.sent == old(req.sent)
      ensures !buffers ==> errors == old(errors) + 1 && nInterest == old(nInterest)
      ensures forall r :: r in old(requestQueue) ==> r.sent == old(r.sent) && r.npkts == old(r.npkts)
    {
      var nTx := if req.npkts > MAX_BURST then MAX_BURST else req.npkts;
      req.npkts := req.npkts - nTx;
      if !buffers {
        errors := errors + 1;
        return;
      }
      ghost var done := |req.sent|;
      for i := 0 to nTx
        invariant req.sent == Offsets(req.start, done + i)
        invariant req.off == req.start + done * MAX_PAYLOAD && req.npkts == old(req.npkts) - nTx
        invariant requestQueue == old(requestQueue) && nInterest == old(nInterest) && errors == old(errors)
        invariant forall r :: r in old(requestQueue) ==> r.sent == old(r.sent) && r.npkts == old(r.npkts) && r.off == old(r.off)
      {
        EncodeReadInterest(req, req.off + i * MAX_PAYLOAD);
      }
      req.off := req.off + MAX_PAYLOAD * nTx;
      if req.npkts > 0 { requestQueue := requestQueue + [req]; }
      nInterest := nInterest + nTx;
    }

    method EncodeReadInterest(req: ReadRequest, segNum: nat)
      modifies req`sent
      ensures req.sent == old(req.sent) + [segNum]
    {
      req.sent := req.sent + [segNum];
    }

    /** One turn of the transmit loop, on the oldest request in the ring. */
    method Run(buffers: bool)
      requires Valid() && requestQueue != []
      modifies this, requestQueue
      ensures Valid()
      ensures buffers ==>
                var req := old(requestQueue[0]);
                && req.Valid() && (req.Complete() || req in requestQueue)
                && requestQueue == old(requestQueue)[1..] + (if req.Complete() then [] else [req])
                && req.npkts == (if old(requestQueue[0].npkts) > 32 then old(requestQueue[0].npkts) - 32 else 0)
                && nInterest == old(nInterest) + (old(requestQueue[0].npkts) - req.npkts) && errors == old(errors)
      ensures !buffers ==> requestQueue == old(requestQueue)[1..] && errors == old(errors) + 1 && nInterest == old(nInterest)
      ensures !buffers ==> forall r :: r in old(requestQueue) ==> r.sent == old(r.sent)
      ensures forall r :: r in old(requestQueue) && r != old(requestQueue[0]) ==> r.sent == old(r.sent)
    {
      var req := requestQueue[0];
      requestQueue := requestQueue[1..];
      ExpressReadInterests(req, buffers);
    }
  }

  /** How many bursts a request of n segments takes. */
  function Bursts(n: nat): nat { (n + MAX_BURST - 1) / MAX_BURST }

  /** A burst leaves exactly one burst less, so a request leaves the ring after
      ceiling(count / 32) turns of its own. */
  lemma OneBurstLess(n: nat)
    requires n > 0
    ensures Bursts(if n > MAX_BURST then n - MAX_BURST else 0) == Bursts(n) - 1
    ensures (Bursts(n) - 1) * MAX_BURST < n <= Bursts(n) * MAX_BURST
  {
  }

  /** The segments of a completed request are those of the byte range, each exactly once. */
  lemma OffsetsCoverOnce(start: nat, n: nat, p: nat)
    requires start <= p < start + n * MAX_PAYLOAD
    ensures var k := (p - start) / MAX_PAYLOAD;
            k < n && Offsets(start, n)[k] <= p < Offsets(start, n)[k] + MAX_PAYLOAD
            && forall i :: 0 <= i < n && Offsets(start, n)[i] <= p < Offsets(start, n)[i] + MAX_PAYLOAD ==> i == k
  {
  }
}
