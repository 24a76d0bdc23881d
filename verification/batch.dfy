/** The per-item loop shared by the three workflows: build one request per
    item, submit it, and let a per-workflow verdict decide whether the
    outcome ends the run. Items are processed strictly in order. */
module Batches {
  import opened Prelude
  import opened Chain

  /** What a run returns, together with the requests it submitted, in
      submission order. */
  datatype Batch<+E> = Batch(result: Result<(), E>, sent: seq<Request>)

  /** The declarative account of a batch over `items[k..]`: the requests
      sent are those built for a prefix of the items; the run succeeds iff
      every item was sent and no outcome was judged terminal; and it fails
      with the error of the last item sent, every earlier outcome having
      been let through. The n-th submission of the run is `send(n, _)`. */
  ghost predicate IsBatchFrom<I, E>(items: seq<I>, k: nat, build: I -> Request,
                                    send: (nat, Request) -> SendResult,
                                    verdict: SendResult -> Option<E>, b: Batch<E>)
  {
    && k <= |items|
    && |b.sent| <= |items| - k
    && (forall i :: 0 <= i < |b.sent| ==> b.sent[i] == build(items[k + i]))
    && (b.result.Ok? <==>
          |b.sent| == |items| - k &&
          forall i :: 0 <= i < |b.sent| ==> verdict(send(k + i, b.sent[i])).None?)
    && (b.result.Err? ==>
          && 0 < |b.sent|
          && verdict(send(k + |b.sent| - 1, b.sent[|b.sent| - 1])) == Some(b.result.error)
          && forall i :: 0 <= i < |b.sent| - 1 ==> verdict(send(k + i, b.sent[i])).None?)
  }

  /** An item whose outcome is terminal ends the batch with its error. */
  lemma StopHere<I, E>(items: seq<I>, k: nat, build: I -> Request, send: (nat, Request) -> SendResult,
                       verdict: SendResult -> Option<E>)
    requires k < |items| && verdict(send(k, build(items[k]))).Some?
    ensures IsBatchFrom(items, k, build, send, verdict,
                        Batch(Err(verdict(send(k, build(items[k]))).value), [build(items[k])]))
  {
  }

  /** An item whose outcome is let through is followed by the batch over
      the remaining items. */
  lemma PassOn<I, E>(items: seq<I>, k: nat, build: I -> Request, send: (nat, Request) -> SendResult,
                     verdict: SendResult -> Option<E>, rest: Batch<E>)
    requires k < |items| && verdict(send(k, build(items[k]))).None?
    requires IsBatchFrom(items, k + 1, build, send, verdict, rest)
    ensures IsBatchFrom(items, k, build, send, verdict, Batch(rest.result, [build(items[k])] + rest.sent))
  {
    var b := Batch(rest.result, [build(items[k])] + rest.sent);
    assert forall i :: 0 < i < |b.sent| ==>
      b.sent[i] == rest.sent[i - 1] && k + i == (k + 1) + (i - 1);
    if |b.sent| == |items| - k && forall i :: 0 <= i < |b.sent| ==> verdict(send(k + i, b.sent[i])).None? {
      forall i | 0 <= i < |rest.sent|
        ensures verdict(send((k + 1) + i, rest.sent[i])).None?
      {
        assert rest.sent[i] == b.sent[i + 1] && (k + 1) + i == k + (i + 1);
      }
      assert rest.result.Ok?;
    }
    if rest.result.Ok? {
      forall i | 0 <= i < |b.sent|
        ensures verdict(send(k + i, b.sent[i])).None?
      {
        if i > 0 {
          assert verdict(send((k + 1) + (i - 1), rest.sent[i - 1])).None?;
        }
      }
    }
  }

  /** The loop over `items[k..]`: the first terminal verdict stops it, and
      the items after that one are never built or submitted. */
  function RunBatchFrom<I, E>(items: seq<I>, k: nat, build: I -> Request,
                              send: (nat, Request) -> SendResult,
                              verdict: SendResult -> Option<E>): (b: Batch<E>)
    requires k <= |items|
    ensures IsBatchFrom(items, k, build, send, verdict, b)
    decreases |items| - k
  {
    if k == |items| then Batch(Ok(()), [])
    else
      var request := build(items[k]);
      match verdict(send(k, request))
      case Some(e) =>
        StopHere(items, k, build, send, verdict);
        Batch(Err(e), [request])
      case None =>
        var rest := RunBatchFrom(items, k + 1, build, send, verdict);
        PassOn(items, k, build, send, verdict, rest);
        Batch(rest.result, [request] + rest.sent)
  }

  /** The whole loop, from the first item. */
  function RunBatch<I, E>(items: seq<I>, build: I -> Request,
                          send: (nat, Request) -> SendResult,
                          verdict: SendResult -> Option<E>): (b: Batch<E>)
    ensures IsBatchFrom(items, 0, build, send, verdict, b)
  {
    RunBatchFrom(items, 0, build, send, verdict)
  }

  /** The declarative account pins the loop down: a batch that satisfies
      it is the one the loop computes. */
  lemma {:induction false} BatchIsDetermined<I, E>(items: seq<I>, k: nat, build: I -> Request,
                                                   send: (nat, Request) -> SendResult,
                                                   verdict: SendResult -> Option<E>, b: Batch<E>)
    requires IsBatchFrom(items, k, build, send, verdict, b)
    ensures b == RunBatchFrom(items, k, build, send, verdict)
    decreases |items| - k
  {
    var r := RunBatchFrom(items, k, build, send, verdict);
    if k == |items| {
      assert b.sent == [];
      assert b.result.Ok?;
      var u: () := b.result.value;
      assert u == ();
    } else {
      assert 0 < |b.sent|;
      var request := build(items[k]);
      assert b.sent[0] == request;
      match verdict(send(k, request))
      case Some(e) =>
        assert b.result.Err? && |b.sent| == 1;
      case None =>
        var tail := Batch(b.result, b.sent[1..]);
        if b.result.Err? {
          assert |b.sent| > 1;
        }
        assert forall i :: 0 <= i < |tail.sent| ==> tail.sent[i] == b.sent[i + 1];
        assert IsBatchFrom(items, k + 1, build, send, verdict, tail);
        BatchIsDetermined(items, k + 1, build, send, verdict, tail);
        assert b.sent == [request] + tail.sent;
    }
  }
}
