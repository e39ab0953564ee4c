/** Transfers in strided batches: which request is whose (src/net/redis.cc, src/net/s3.cc). */
module Batches {
  // What a thread transfers: from its own index on, every stride-th request.
  function Strided(from: nat, stride: nat, n: nat): seq<nat>
    requires stride > 0
    decreases n - from
  {
    if from >= n then [] else [from] + Strided(from + stride, stride, n)
  }

  lemma NextFits(first: nat, k: nat, threads: nat, batch: nat, id: nat)
    requires threads > 0 && id == first + k * threads && id < first + threads * batch
    ensures k < batch && id + threads == first + (k + 1) * threads
  {
    LessTimes(k, batch, threads);
    Times(k, threads);
  }

  lemma LessTimes(a: nat, b: nat, t: nat)
    requires t > 0 && a * t < b * t
    ensures a < b
  {
    assert a >= b ==> a * t == b * t + (a - b) * t;
  }

  lemma Times(a: nat, t: nat)
    ensures (a + 1) * t == a * t + t
  {
  }

  // One batch: the requests of a thread from first on, as many as a batch holds.
  method Send(first: nat, threads: nat, batch: nat, n: nat) returns (sent: seq<nat>)
    requires threads > 0 && first < n
    ensures sent + Strided(first + threads * batch, threads, n) == Strided(first, threads, n)
    ensures |sent| <= batch && forall k | 0 <= k < |sent| :: sent[k] == first + k * threads
  {
    sent := [];
    var id := first;
    var end := if n < first + threads * batch then n else first + threads * batch;
    while id < end
      invariant id == first + |sent| * threads && |sent| <= batch
      invariant forall k | 0 <= k < |sent| :: sent[k] == first + k * threads
      invariant sent + Strided(id, threads, n) == Strided(first, threads, n)
      decreases end - id
    {
      NextFits(first, |sent|, threads, batch, id);
      sent := sent + [id];
      id := id + threads;
    }
    AtEnd(|sent|, batch, threads);
  }

  lemma AtEnd(a: nat, b: nat, t: nat)
    requires a <= b
    ensures a * t <= b * t == t * b
  {
    assert b * t == a * t + (b - a) * t;
  }

  // A reply, and the request that the peer meant it for.
  datatype Reply = Reply(request: nat, data: string)

  // What has been downloaded, by request.
  type Files = map<nat, string>

  // The peer answers pipelined requests in order.
  function RepliesTo(objects: nat -> string, sent: seq<nat>): seq<Reply> {
    seq(|sent|, k requires 0 <= k < |sent| => Reply(sent[k], objects(sent[k])))
  }

  // Every reply's data is in the file of the request that it was meant for.
  function Written(files: Files, replies: seq<Reply>): Files {
    if replies == [] then files
    else
      var last := replies[|replies| - 1];
      Written(files, replies[..|replies| - 1])[last.request := last.data]
  }

  lemma {:induction false} WrittenBoth(files: Files, a: seq<Reply>, b: seq<Reply>)
    ensures Written(files, a + b) == Written(Written(files, a), b)
  {
    if b == [] {
      assert a + b == a;
    } else {
      var n := |b| - 1;
      assert (a + b)[..|a| + n] == a + b[..n];
      WrittenBoth(files, a, b[..n]);
    }
  }

  lemma {:induction false} WrittenHas(files: Files, objects: nat -> string, sent: seq<nat>, i: nat)
    ensures var after := Written(files, RepliesTo(objects, sent));
            && (i in after <==> i in files || i in sent)
            && (i in after ==> after[i] == if i in sent then objects(i) else files[i])
  {
    if sent != [] {
      var n := |sent| - 1;
      assert RepliesTo(objects, sent)[..n] == RepliesTo(objects, sent[..n]);
      WrittenHas(files, objects, sent[..n], i);
      assert sent == sent[..n] + [sent[n]];
    }
  }

  // Takes the k-th reply of a batch for its k-th request, which is the one it was meant for.
  method Drain(first: nat, threads: nat, replies: seq<Reply>, before: Files) returns (files: Files)
    requires forall k | 0 <= k < |replies| :: replies[k].request == first + k * threads
    ensures files == Written(before, replies)
  {
    files := before;
    var count := 0;
    assert replies[..0] == [];
    while count != |replies|
      invariant count <= |replies| && files == Written(before, replies[..count])
    {
      assert replies[..count + 1][..count] == replies[..count];
      files := files[first + count * threads := replies[count].data];
      count := count + 1;
    }
    assert replies[..count] == replies;
  }

  /** One thread: every one of its requests is sent, and its object is stored under it. */
  method Transfer(index: nat, threads: nat, batch: nat, n: nat, objects: nat -> string, before: Files)
    returns (sent: seq<nat>, files: Files)
    requires threads > 0 && batch > 0
    ensures sent == Strided(index, threads, n) && files == Written(before, RepliesTo(objects, sent))
  {
    hide Written;
    sent, files := [], before;
    var first := index;
    NothingWritten(before, objects);
    while first < n
      invariant sent + Strided(first, threads, n) == Strided(index, threads, n)
      invariant files == Written(before, RepliesTo(objects, sent))
      decreases n - first
    {
      var requests := Send(first, threads, batch, n);
      files := Drain(first, threads, RepliesTo(objects, requests), files);
      WrittenBoth(before, RepliesTo(objects, sent), RepliesTo(objects, requests));
      assert RepliesTo(objects, sent + requests) == RepliesTo(objects, sent) + RepliesTo(objects, requests);
      sent := sent + requests;
      BatchMoves(threads, batch);
      first := first + threads * batch;
    }
  }

  lemma NothingWritten(files: Files, objects: nat -> string)
    ensures Written(files, RepliesTo(objects, [])) == files
  {
  }

  lemma BatchMoves(threads: nat, batch: nat)
    requires threads > 0 && batch > 0
    ensures threads * batch > 0
  {
  }

  // ---------------------------------------------------------------- a partition

  // A whole number of strides.
  predicate Strides(d: int, stride: nat)
    requires stride > 0
  {
    d % stride == 0
  }

  lemma StridesFrom(d: nat, stride: nat)
    requires stride > 0
    ensures d < stride ==> (Strides(d, stride) <==> d == 0)
    ensures d >= stride ==> (Strides(d, stride) <==> Strides(d - stride, stride))
  {
    if d >= stride { ModShift(d, stride); } else { SameRemainder(0, d, stride); }
  }

  lemma {:induction false} StridedMembers(from: nat, stride: nat, n: nat, i: nat)
    requires stride > 0
    ensures i in Strided(from, stride, n) <==> from <= i < n && Strides(i - from, stride)
    decreases n - from
  {
    hide Strides;
    if from < n {
      StridedMembers(from + stride, stride, n, i);
      if i >= from { StridesFrom(i - from, stride); }
    }
  }

  // Quotient and remainder are unique.
  lemma UniqueRemainder(p: int, a: int, q: int, b: int, t: nat)
    requires 0 <= a < t && 0 <= b < t && p * t + a == q * t + b
    ensures a == b
  {
    AtLeast(p - q, t);
    AtLeast(q - p, t);
    assert (p - q) * t == b - a && (q - p) * t == a - b;
  }

  lemma AtLeast(d: int, t: nat)
    ensures d >= 1 ==> d * t >= t
  {
  }

  lemma SameRemainder(q: int, r: int, t: nat)
    requires 0 <= r < t
    ensures (q * t + r) % t == r
  {
    var m := q * t + r;
    assert m == (m / t) * t + m % t;
    UniqueRemainder(q, r, m / t, m % t, t);
  }

  lemma ModShift(a: nat, stride: nat)
    requires a >= stride > 0
    ensures a % stride == (a - stride) % stride
  {
    var q, r := a / stride, a % stride;
    assert a == q * stride + r;
    assert a - stride == (q - 1) * stride + r;
    SameRemainder(q - 1, r, stride);
  }

  // The thread that request i falls to.
  function Owner(i: nat, threads: nat): (t: nat)
    requires threads > 0
    ensures t < threads
  {
    i % threads
  }

  // A thread has exactly the requests whose number leaves its index as the remainder ...
  lemma ThreadOwns(index: nat, threads: nat, n: nat, i: nat)
    requires index < threads
    ensures i in Strided(index, threads, n) <==> i < n && Owner(i, threads) == index
  {
    hide Strides, Owner;
    StridedMembers(index, threads, n, i);
    if i >= index { RemainderShift(i, index, threads); } else { OwnIndex(i, threads); }
  }

  lemma OwnIndex(i: nat, threads: nat)
    requires i < threads
    ensures Owner(i, threads) == i
  {
    SameRemainder(0, i, threads);
  }

  lemma RemainderShift(i: nat, index: nat, threads: nat)
    requires index < threads && index <= i
    ensures Strides(i - index, threads) <==> Owner(i, threads) == index
  {
    var q, r := i / threads, i % threads;
    assert i == q * threads + r;
    if r >= index {
      SameRemainder(q, r - index, threads);
    } else {
      SameRemainder(q - 1, threads + r - index, threads);
      assert i - index == (q - 1) * threads + (threads + r - index);
    }
  }

  // How often i is transferred.
  function Count(s: seq<nat>, i: nat): nat { multiset(s)[i] }

  lemma NothingCounted(i: nat)
    ensures Count([], i) == 0
  {
  }

  lemma CountBoth(a: seq<nat>, b: seq<nat>, i: nat)
    ensures Count(a + b, i) == Count(a, i) + Count(b, i)
  {
  }

  // ... and each of them once.
  lemma {:induction false} StridedOnce(from: nat, stride: nat, n: nat, i: nat)
    requires stride > 0
    ensures Count(Strided(from, stride, n), i) == if i in Strided(from, stride, n) then 1 else 0
    decreases n - from
  {
    hide Strides;
    if from < n {
      StridedOnce(from + stride, stride, n, i);
      StridedMembers(from + stride, stride, n, i);
      CountBoth([from], Strided(from + stride, stride, n), i);
    }
  }

  // The requests of the first k threads.
  function AllSent(k: nat, threads: nat, n: nat): seq<nat>
    requires k <= threads
  {
    if k == 0 then [] else AllSent(k - 1, threads, n) + Strided(k - 1, threads, n)
  }

  lemma {:induction false} SentOnce(k: nat, threads: nat, n: nat, i: nat)
    requires k <= threads
    ensures Count(AllSent(k, threads, n), i) == if i < n && threads > 0 && Owner(i, threads) < k then 1 else 0
  {
    hide Strided, Owner, Count;
    NothingCounted(i);
    if k > 0 {
      SentOnce(k - 1, threads, n, i);
      StridedOnce(k - 1, threads, n, i);
      ThreadOwns(k - 1, threads, n, i);
      CountBoth(AllSent(k - 1, threads, n), Strided(k - 1, threads, n), i);
    }
  }

  /** All threads together transfer every request exactly once, and store its object under it. */
  method TransferAll(threads: nat, batch: nat, n: nat, objects: nat -> string) returns (sent: seq<nat>, files: Files)
    requires batch > 0
    ensures forall i: nat :: Count(sent, i) == if threads > 0 && i < n then 1 else 0
    ensures forall i: nat :: i in files <==> threads > 0 && i < n
    ensures forall i: nat | i in files :: files[i] == objects(i)
  {
    hide Written, Strided, Count;
    sent, files := [], map[];
    NothingWritten(files, objects);
    for index := 0 to threads
      invariant sent == AllSent(index, threads, n) && files == Written(map[], RepliesTo(objects, sent))
    {
      if index < n {
        var mine;
        mine, files := Transfer(index, threads, batch, n, objects, files);
        WrittenBoth(map[], RepliesTo(objects, sent), RepliesTo(objects, mine));
        assert RepliesTo(objects, sent + mine) == RepliesTo(objects, sent) + RepliesTo(objects, mine);
        sent := sent + mine;
      } else {
        NoneOwned(index, threads, n);
      }
    }
    forall i: nat
      ensures Count(sent, i) == if threads > 0 && i < n then 1 else 0
      ensures i in files <==> threads > 0 && i < n
      ensures i in files ==> files[i] == objects(i) {
      OneTransferred(threads, n, objects, sent, files, i);
    }
  }

  lemma NoneOwned(index: nat, threads: nat, n: nat)
    requires threads > 0 && index >= n
    ensures Strided(index, threads, n) == []
  {
  }

  lemma OneTransferred(threads: nat, n: nat, objects: nat -> string, sent: seq<nat>, files: Files, i: nat)
    requires sent == AllSent(threads, threads, n) && files == Written(map[], RepliesTo(objects, sent))
    ensures Count(sent, i) == if threads > 0 && i < n then 1 else 0
    ensures i in files <==> threads > 0 && i < n
    ensures i in files ==> files[i] == objects(i)
  {
    hide Written, AllSent, Owner;
    SentOnce(threads, threads, n, i);
    WrittenHas(map[], objects, sent, i);
  }
}
