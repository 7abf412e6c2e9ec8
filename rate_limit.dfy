/** The in-memory fixed-window rate limiter of server.js (`buckets` and
    `rateLimit`). The clock is the explicit parameter `now`, in milliseconds. */
module RateLimit {
  import opened Wrappers

  const WindowMs: int := 60_000

  /** A client's current window: when it opened and how many calls it has counted. */
  datatype Bucket = Bucket(windowStartMs: int, count: int)

  function Lookup(buckets: map<string, Bucket>, clientId: string): Option<Bucket> {
    if clientId in buckets then Some(buckets[clientId]) else None
  }

  /** A call opens a new window when the client has no bucket yet or its
      window started at least `WindowMs` ago. */
  predicate StartsWindow(b: Option<Bucket>, now: int) {
    b.None? || now - b.value.windowStartMs >= WindowMs
  }

  /** The client's bucket after one call at time `now`. */
  function Tick(b: Option<Bucket>, now: int): Bucket {
    if StartsWindow(b, now) then Bucket(now, 1)
    else Bucket(b.value.windowStartMs, b.value.count + 1)
  }

  /** A call is admitted when the incremented count is at most `rpm`. */
  predicate Admits(b: Bucket, rpm: int) {
    b.count <= rpm
  }

  /** The verdicts of successive calls of one client at the given times. */
  function Replay(b: Option<Bucket>, rpm: int, times: seq<int>): (verdicts: seq<bool>)
    ensures |verdicts| == |times|
    decreases |times|
  {
    if times == [] then []
    else
      var next := Tick(b, times[0]);
      [Admits(next, rpm)] + Replay(Some(next), rpm, times[1..])
  }

  /** One call either opens a window at `now` with count 1, or keeps the
      window start and adds one to the count; the first happens exactly
      when `StartsWindow` holds. */
  lemma TickShape(b: Option<Bucket>, now: int)
    requires b.Some? ==> b.value.count >= 1
    ensures Tick(b, now).count >= 1
    ensures StartsWindow(b, now) <==> Tick(b, now) == Bucket(now, 1)
    ensures !StartsWindow(b, now)
            ==> Tick(b, now).windowStartMs == b.value.windowStartMs && Tick(b, now).count == b.value.count + 1
  {
  }

  /** Calls that stay inside the current window see the count grow by one
      each: the k-th of them is admitted iff `count + k + 1 <= rpm`. */
  lemma {:induction false} ReplayInWindow(start: int, count: int, rpm: int, times: seq<int>)
    requires forall i :: 0 <= i < |times| ==> times[i] - start < WindowMs
    ensures forall k :: 0 <= k < |times| ==> Replay(Some(Bucket(start, count)), rpm, times)[k] == (count + k + 1 <= rpm)
    decreases |times|
  {
    if times != [] {
      var rest := Replay(Some(Bucket(start, count + 1)), rpm, times[1..]);
      assert Tick(Some(Bucket(start, count)), times[0]) == Bucket(start, count + 1);
      ReplayInWindow(start, count + 1, rpm, times[1..]);
      forall k | 0 <= k < |times|
        ensures Replay(Some(Bucket(start, count)), rpm, times)[k] == (count + k + 1 <= rpm)
      {
        if k > 0 {
          assert Replay(Some(Bucket(start, count)), rpm, times)[k] == rest[k - 1];
        }
      }
    }
  }

  /** Within one window from its opening call, the first `rpm` calls are
      admitted and every later one is rejected. */
  lemma FirstRpmAdmitted(b: Option<Bucket>, rpm: int, times: seq<int>)
    requires |times| > 0 && StartsWindow(b, times[0])
    requires forall i :: 0 < i < |times| ==> times[i] - times[0] < WindowMs
    ensures forall k :: 0 <= k < |times| ==> Replay(b, rpm, times)[k] == (k < rpm)
  {
    var rest := times[1..];
    assert forall i :: 0 <= i < |rest| ==> rest[i] - times[0] < WindowMs by {
      forall i | 0 <= i < |rest| ensures rest[i] - times[0] < WindowMs {
        assert rest[i] == times[i + 1];
      }
    }
    ReplayInWindow(times[0], 1, rpm, rest);
    var verdicts := Replay(b, rpm, times);
    forall k | 0 <= k < |times| ensures verdicts[k] == (k < rpm) {
      if k > 0 {
        assert verdicts[k] == Replay(Some(Bucket(times[0], 1)), rpm, rest)[k - 1];
      }
    }
  }

  /** The window is fixed, not rolling: with rpm = 2, three calls within
      2 ms straddling a window boundary are all admitted. */
  lemma BoundaryBurst()
    ensures Replay(None, 2, [0, 59_999, 60_000, 60_001]) == [true, true, true, true]
  {
  }

  /** The module-level `buckets` map. */
  class Limiter {
    var buckets: map<string, Bucket>

    /** Every stored bucket has counted at least its opening call. */
    ghost predicate Valid()
      reads this
    {
      forall id :: id in buckets ==> buckets[id].count >= 1
    }

    constructor()
      ensures Valid() && buckets == map[]
    {
      buckets := map[];
    }

    /** `rateLimit(clientId, rpm)` with `Date.now()` replaced by `now`. The
        count is incremented whether or not the call is admitted, and no other
        client's bucket changes. */
    method RateLimit(clientId: string, rpm: int, now: int) returns (admitted: bool)
      requires Valid()
      modifies this
      ensures Valid()
      ensures buckets == old(buckets)[clientId := Tick(Lookup(old(buckets), clientId), now)]
      ensures forall id :: id != clientId ==> Lookup(buckets, id) == Lookup(old(buckets), id)
      ensures admitted <==> Admits(buckets[clientId], rpm)
      // Since every stored count is at least 1, a reset is visible as count 1.
      ensures StartsWindow(Lookup(old(buckets), clientId), now) <==> buckets[clientId] == Bucket(now, 1)
    {
      var b := Lookup(buckets, clientId);
      var bucket: Bucket;
      if b.None? || now - b.value.windowStartMs >= WindowMs {
        bucket := Bucket(now, 0);
        buckets := buckets[clientId := bucket];
      } else {
        bucket := b.value;
      }
      bucket := bucket.(count := bucket.count + 1);
      buckets := buckets[clientId := bucket];
      if bucket.count > rpm {
        return false;
      }
      return true;
    }
  }

  /** Successive `RateLimit` calls of one client on a fresh limiter give
      exactly the verdicts `Replay` describes, so the window lemmas above
      are about the limiter's own calls. */
  method ReplayOnLimiter(clientId: string, rpm: int, times: seq<int>) returns (verdicts: seq<bool>)
    ensures verdicts == Replay(None, rpm, times)
  {
    var limiter := new Limiter();
    verdicts := [];
    for i := 0 to |times|
      invariant limiter.Valid()
      invariant verdicts + Replay(Lookup(limiter.buckets, clientId), rpm, times[i..]) == Replay(None, rpm, times)
    {
      ghost var before := Lookup(limiter.buckets, clientId);
      assert times[i..][1..] == times[i + 1..];
      var admitted := limiter.RateLimit(clientId, rpm, times[i]);
      assert Lookup(limiter.buckets, clientId) == Some(Tick(before, times[i]));
      verdicts := verdicts + [admitted];
    }
    assert times[|times|..] == [];
  }
}
