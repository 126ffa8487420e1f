// The token bucket that throttles joins. Time and tokens are real numbers.
module RateLimit {

  datatype Limit = Limit(burst: nat, perSec: real)

  datatype Bucket = Bucket(burst: real, perSec: real, tokens: real, last: real)

  function Full(limit: Limit, now: real): Bucket {
    Bucket(limit.burst as real, limit.perSec, limit.burst as real, now)
  }

  function Min(a: real, b: real): real { if a <= b then a else b }

  // A clock reading before the last one counts as no time passed.
  function Elapsed(last: real, now: real): real { if now <= last then 0.0 else now - last }

  function Refill(b: Bucket, now: real): Bucket {
    b.(last := now, tokens := Min(b.tokens + Elapsed(b.last, now) * b.perSec, b.burst))
  }

  function TryAcquire(b: Bucket, now: real): (Bucket, bool) {
    var full := Refill(b, now);
    if full.tokens >= 1.0 then (full.(tokens := full.tokens - 1.0), true) else (full, false)
  }

  class RateLimiter {
    var burst: real
    var perSec: real
    var tokens: real
    var last: real

    function State(): Bucket reads this { Bucket(burst, perSec, tokens, last) }

    constructor (limit: Limit, now: real)
      ensures State() == Full(limit, now)
    {
      burst := limit.burst as real;
      perSec := limit.perSec;
      tokens := limit.burst as real;
      last := now;
    }

    method Acquire(now: real) returns (granted: bool)
      modifies this
      ensures (State(), granted) == TryAcquire(old(State()), now)
    {
      var elapsed := Elapsed(last, now);
      last := now;
      tokens := Min(tokens + elapsed * perSec, burst);
      if tokens >= 1.0 {
        tokens := tokens - 1.0;
        granted := true;
      } else {
        granted := false;
      }
    }
  }

  // --- What a run of calls may be granted ---

  ghost predicate Nondecreasing(times: seq<real>) {
    forall i, j :: 0 <= i < j < |times| ==> times[i] <= times[j]
  }

  ghost predicate InBounds(b: Bucket) { 0.0 <= b.tokens <= b.burst }

  // The bucket after the calls at these times, and how many of them were granted.
  function Calls(b: Bucket, times: seq<real>): (Bucket, nat) {
    if times == [] then (b, 0)
    else
      var (before, n) := Calls(b, times[..|times| - 1]);
      var (after, granted) := TryAcquire(before, times[|times| - 1]);
      (after, if granted then n + 1 else n)
  }

  lemma GainAdds(rate: real, a: real, b: real)
    ensures rate * a + rate * b == rate * (a + b)
  {
  }

  // One more call: what was granted and what remains grow by no more than the refill.
  lemma OneCall(b: Bucket, now: real)
    requires InBounds(b) && b.perSec >= 0.0 && b.last <= now
    ensures var (after, granted) := TryAcquire(b, now);
            InBounds(after) && after.burst == b.burst && after.perSec == b.perSec && after.last == now &&
            (if granted then 1.0 else 0.0) + after.tokens <= b.burst &&
            (if granted then 1.0 else 0.0) + after.tokens <= b.tokens + b.perSec * (now - b.last)
  {
    RefillGain(b, now);
  }

  // Granted and remaining tokens are covered by the burst and by the refill of a window this long.
  ghost predicate Covered(b: Bucket, after: Bucket, granted: nat, length: real) {
    InBounds(after) && after.burst == b.burst && after.perSec == b.perSec &&
    granted as real + after.tokens <= b.burst + b.perSec * length
  }

  lemma CoverOneMore(b: Bucket, mid: Bucket, granted: nat, length: real, now: real)
    requires b.perSec >= 0.0 && Covered(b, mid, granted, length) && mid.last <= now
    ensures var (after, more) := TryAcquire(mid, now);
            after.last == now && Covered(b, after, if more then granted + 1 else granted, length + (now - mid.last))
  {
    OneCall(mid, now);
    GainAdds(b.perSec, length, now - mid.last);
  }

  // The sustained rate bounds what a call can be granted: tokens stay within the burst, and
  // granted tokens plus remaining ones never exceed the burst plus what the rate refilled.
  lemma {:induction false} TokensAndGrants(b: Bucket, times: seq<real>)
    requires InBounds(b) && b.perSec >= 0.0 && times != []
    requires Nondecreasing(times) && b.last <= times[0]
    ensures var (after, n) := Calls(b, times);
            after.last == times[|times| - 1] && Covered(b, after, n, times[|times| - 1] - times[0])
  {
    var prefix, now := times[..|times| - 1], times[|times| - 1];
    var (before, n) := Calls(b, prefix);
    if prefix == [] {
      OneCall(b, now);
      assert b.perSec * (now - times[0]) == 0.0;
    } else {
      TokensAndGrants(b, prefix);
      CoverOneMore(b, before, n, before.last - times[0], now);
      assert (before.last - times[0]) + (now - before.last) == now - times[0];
    }
  }

  lemma RefillGain(b: Bucket, now: real)
    requires InBounds(b) && b.perSec >= 0.0
    ensures InBounds(Refill(b, now))
    ensures Refill(b, now).tokens <= b.tokens + b.perSec * Elapsed(b.last, now)
  {
    assert b.perSec * Elapsed(b.last, now) >= 0.0;
    assert Elapsed(b.last, now) * b.perSec == b.perSec * Elapsed(b.last, now);
  }

  lemma {:induction false} CallsSplit(b: Bucket, earlier: seq<real>, window: seq<real>)
    ensures var (mid, m) := Calls(b, earlier); var (after, n) := Calls(mid, window);
            Calls(b, earlier + window) == (after, m + n)
  {
    if window == [] {
      assert earlier + window == earlier;
    } else {
      var w := window[..|window| - 1];
      CallsSplit(b, earlier, w);
      assert (earlier + window)[..|earlier + window| - 1] == earlier + w;
      assert (earlier + window)[|earlier + window| - 1] == window[|window| - 1];
    }
  }

  lemma SliceInOrder(times: seq<real>, from: nat, to: nat)
    requires Nondecreasing(times) && from <= to <= |times|
    ensures Nondecreasing(times[from..to])
  {
  }

  lemma TimesSplit(start: real, earlier: seq<real>, window: seq<real>)
    requires window != [] && Nondecreasing([start] + earlier + window)
    ensures Nondecreasing(earlier) && Nondecreasing(window)
    ensures start <= window[0]
    ensures earlier != [] ==> start <= earlier[0] && earlier[|earlier| - 1] <= window[0]
  {
    var all := [start] + earlier + window;
    var n := 1 + |earlier|;
    assert all[1..n] == earlier && all[n..|all|] == window;
    SliceInOrder(all, 1, n);
    SliceInOrder(all, n, |all|);
    assert all[0] <= all[n] && all[n - 1] <= all[n] && (earlier != [] ==> all[0] <= all[1]);
  }

  lemma BucketBefore(b: Bucket, earlier: seq<real>, next: real)
    requires InBounds(b) && b.perSec >= 0.0 && Nondecreasing(earlier) && b.last <= next
    requires earlier != [] ==> b.last <= earlier[0] && earlier[|earlier| - 1] <= next
    ensures var mid := Calls(b, earlier).0;
            InBounds(mid) && mid.burst == b.burst && mid.perSec == b.perSec && mid.last <= next
  {
    if earlier != [] { TokensAndGrants(b, earlier); }
  }

  // In any window of consecutive calls, whatever came before it, at most
  // burst + rate * length of the window calls are granted.
  lemma WindowBound(limit: Limit, start: real, earlier: seq<real>, window: seq<real>)
    requires limit.perSec >= 0.0 && window != [] && Nondecreasing([start] + earlier + window)
    ensures var before, after := Calls(Full(limit, start), earlier).1, Calls(Full(limit, start), earlier + window).1;
            WithinAllowance(limit, after - before, window[|window| - 1] - window[0])
  {
    var b := Full(limit, start);
    TimesSplit(start, earlier, window);
    BucketBefore(b, earlier, window[0]);
    CallsSplit(b, earlier, window);
    WindowFrom(limit, Calls(b, earlier).0, window);
  }

  lemma WindowFrom(limit: Limit, b: Bucket, window: seq<real>)
    requires InBounds(b) && b.burst == limit.burst as real && b.perSec == limit.perSec >= 0.0
    requires window != [] && Nondecreasing(window) && b.last <= window[0]
    ensures WithinAllowance(limit, Calls(b, window).1, window[|window| - 1] - window[0])
  {
    TokensAndGrants(b, window);
    var (after, n) := Calls(b, window);
    CoveredIsAllowed(limit, b, after, n, window[|window| - 1] - window[0]);
  }

  ghost predicate WithinAllowance(limit: Limit, granted: int, length: real) {
    granted as real <= limit.burst as real + limit.perSec * length
  }

  lemma CoveredIsAllowed(limit: Limit, b: Bucket, after: Bucket, granted: nat, length: real)
    requires Covered(b, after, granted, length) && b.burst == limit.burst as real && b.perSec == limit.perSec
    ensures WithinAllowance(limit, granted, length)
  {
    assert b.perSec * length == limit.perSec * length;
  }

  // --- What a run of calls must be granted ---

  // A full bucket grants its first calls, as many as its burst, however close together.
  lemma {:induction false} FirstBurstIsGranted(limit: Limit, start: real, times: seq<real>)
    requires limit.perSec >= 0.0 && |times| <= limit.burst
    ensures var (after, granted) := Calls(Full(limit, start), times);
            granted == |times| && after.burst == limit.burst as real && after.perSec == limit.perSec &&
            after.tokens >= (limit.burst - |times|) as real
  {
    if times != [] {
      var front, now := times[..|times| - 1], times[|times| - 1];
      FirstBurstIsGranted(limit, start, front);
      var before := Calls(Full(limit, start), front).0;
      assert Elapsed(before.last, now) * before.perSec >= 0.0;
    }
  }

  function Wait(last: real, times: seq<real>, i: nat): real
    requires i < |times|
  {
    times[i] - if i == 0 then last else times[i - 1]
  }

  // Each call comes no sooner than one token's refill after the one before.
  ghost predicate Paced(perSec: real, last: real, times: seq<real>) {
    forall i :: 0 <= i < |times| ==> Wait(last, times, i) * perSec >= 1.0
  }

  // After a wait that refills a token a call is granted, however empty the bucket was.
  lemma WaitIsGranted(b: Bucket, now: real)
    requires InBounds(b) && b.burst >= 1.0 && b.perSec > 0.0 && (now - b.last) * b.perSec >= 1.0
    ensures var (after, granted) := TryAcquire(b, now);
            granted && InBounds(after) && after.burst == b.burst && after.perSec == b.perSec && after.last == now
  {
    WaitIsPositive(now - b.last, b.perSec);
    assert Elapsed(b.last, now) == now - b.last;
    RefillGain(b, now);
  }

  lemma WaitIsPositive(wait: real, perSec: real)
    requires perSec > 0.0 && wait * perSec >= 1.0
    ensures wait > 0.0
  {
    assert wait <= 0.0 ==> wait * perSec <= 0.0;
  }

  // Calls so paced are all granted, from whatever is left in the bucket.
  lemma {:induction false} PacedCallsAreGranted(b: Bucket, times: seq<real>)
    requires InBounds(b) && b.burst >= 1.0 && b.perSec > 0.0 && Paced(b.perSec, b.last, times)
    ensures var (after, granted) := Calls(b, times);
            granted == |times| && InBounds(after) && after.burst == b.burst && after.perSec == b.perSec &&
            after.last == if times == [] then b.last else times[|times| - 1]
  {
    hide TryAcquire;
    if times != [] {
      var n := |times| - 1;
      PacedFront(b.perSec, b.last, times);
      PacedCallsAreGranted(b, times[..n]);
      WaitIsGranted(Calls(b, times[..n]).0, times[n]);
    }
  }

  lemma PacedFront(perSec: real, last: real, times: seq<real>)
    requires times != [] && Paced(perSec, last, times)
    ensures var n := |times| - 1;
            Paced(perSec, last, times[..n]) && (times[n] - if times[..n] == [] then last else times[..n][n - 1]) * perSec >= 1.0
  {
    var n := |times| - 1;
    assert forall i :: 0 <= i < n ==> Wait(last, times[..n], i) == Wait(last, times, i);
    assert Wait(last, times, n) * perSec >= 1.0;
  }

  // The bound needs a rate that is not negative; with one that is, the bucket goes below empty.
  lemma NegativeRateLeavesBounds(burst: nat, perSec: real, start: real)
    requires perSec < 0.0
    ensures exists now :: start <= now && !InBounds(Calls(Full(Limit(burst, perSec), start), [now]).0)
  {
    var b := Full(Limit(burst, perSec), start);
    var wait := (burst as real + 1.0) / (-perSec);
    var now := start + wait;
    assert wait > 0.0;
    assert wait * perSec == -(burst as real + 1.0);
    assert Calls(b, []) == (b, 0);
    assert [now][..|[now]| - 1] == [];
    assert Calls(b, [now]).0 == TryAcquire(b, now).0;
    assert Elapsed(start, now) == wait;
    assert Refill(b, now).tokens == -1.0;
  }
}
