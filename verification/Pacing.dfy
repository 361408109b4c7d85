/** The token bucket that paces publishing: one token per record, shared by all publishers. A
    caller reserves its token at once, if need be on credit, and is told how long to wait before
    using it. Times are seconds and all arithmetic is exact. */
module Pacing {
  import opened Json

  const DEFAULT_PUBLISH_RATE: real := 1500.0
  const PUBLISH_BURST_SECONDS: real := 0.1

  /** The setting: absent or empty, not a finite number, or a number. */
  datatype Setting = Absent | Malformed | Number(rate: real)

  /** Zero switches pacing off; anything else that is no rate falls back to the default. */
  function PublishRateFrom(raw: Setting): (rate: Option<real>)
    ensures rate.Some? ==> rate.value > 0.0
    ensures rate == None <==> raw == Number(0.0)
    ensures raw.Number? && raw.rate > 0.0 ==> rate == Some(raw.rate)
    ensures rate == None || rate == Some(DEFAULT_PUBLISH_RATE) || raw == Number(rate.value)
  {
    match raw
    case Number(rate) => if rate == 0.0 then None else if rate > 0.0 then Some(rate) else Some(DEFAULT_PUBLISH_RATE)
    case _ => Some(DEFAULT_PUBLISH_RATE)
  }

  datatype Bucket = Bucket(rate: real, capacity: real, tokens: real, last: real)

  predicate Valid(b: Bucket) {
    b.rate > 0.0 && b.capacity >= 1.0 && b.tokens <= b.capacity
  }

  function Min(a: real, b: real): real {
    if a <= b then a else b
  }

  function Full(rate: real, now: real): Bucket {
    var capacity := if rate * PUBLISH_BURST_SECONDS >= 1.0 then rate * PUBLISH_BURST_SECONDS else 1.0;
    Bucket(rate, capacity, capacity, now)
  }

  function Elapsed(b: Bucket, now: real): real {
    if now >= b.last then now - b.last else 0.0
  }

  /** The balance a call finds, before it takes its token. A clock that went back counts as
      standing still, and still moves `last`. */
  function Balance(b: Bucket, now: real): real {
    Min(b.tokens + Elapsed(b, now) * b.rate, b.capacity)
  }

  function Taken(b: Bucket, now: real): Bucket {
    b.(tokens := Balance(b, now) - 1.0, last := now)
  }

  function Wait(b: Bucket, now: real): real
    requires b.rate > 0.0
  {
    if Balance(b, now) >= 1.0 then 0.0 else (1.0 - Balance(b, now)) / b.rate
  }

  class TokenBucket {
    var rate: real
    var capacity: real
    var tokens: real
    var last: real

    function Snapshot(): Bucket
      reads this
    {
      Bucket(rate, capacity, tokens, last)
    }

    constructor (rate: real, now: real)
      requires rate > 0.0
      ensures Snapshot() == Full(rate, now) && Valid(Snapshot())
    {
      this.rate := rate;
      var burst := rate * PUBLISH_BURST_SECONDS;
      capacity := if burst >= 1.0 then burst else 1.0;
      tokens := if burst >= 1.0 then burst else 1.0;
      last := now;
    }

    method Take(now: real) returns (wait: real)
      requires Valid(Snapshot())
      modifies this
      ensures Snapshot() == Taken(old(Snapshot()), now) && Valid(Snapshot())
      ensures wait == Wait(old(Snapshot()), now) >= 0.0
    {
      var elapsed := if now >= last then now - last else 0.0;
      last := now;
      tokens := Min(tokens + elapsed * rate, capacity);
      tokens := tokens - 1.0;
      wait := if tokens >= 0.0 then 0.0 else -tokens / rate;
    }
  }

  /** A clock that went back adds nothing; otherwise the time since the last call does, up to the
      capacity. A call leaves a debt exactly if it has to wait, and the wait pays it. */
  lemma TakesOne(b: Bucket, now: real)
    requires Valid(b)
    ensures var t := Taken(b, now);
            && (now <= b.last ==> t.tokens == b.tokens - 1.0)
            && (now >= b.last ==>
                  var refilled := b.tokens + (now - b.last) * b.rate;
                  t.tokens == (if refilled <= b.capacity then refilled else b.capacity) - 1.0)
            && (if t.tokens >= 0.0 then Wait(b, now) == 0.0
                else Wait(b, now) > 0.0 && t.tokens + Wait(b, now) * b.rate == 0.0)
  {
    assert 0.0 * b.rate == 0.0;
    if Balance(b, now) < 1.0 {
      var debt := 1.0 - Balance(b, now);
      assert debt / b.rate * b.rate == debt;
      assert debt > 0.0 && b.rate > 0.0;
    }
  }

  // ---- Runs: one bucket, calls at these times ----

  function After(b: Bucket, calls: seq<real>, n: nat): Bucket
    requires n <= |calls|
  {
    if n == 0 then b else Taken(After(b, calls, n - 1), calls[n - 1])
  }

  /** The balance call n finds. */
  function BalanceAt(b: Bucket, calls: seq<real>, n: nat): real
    requires n < |calls|
  {
    Balance(After(b, calls, n), calls[n])
  }

  /** When call n may use its token. */
  function Grant(b: Bucket, calls: seq<real>, n: nat): real
    requires n < |calls| && b.rate > 0.0
  {
    RateKept(b, calls, n);
    calls[n] + Wait(After(b, calls, n), calls[n])
  }

  lemma {:induction false} RateKept(b: Bucket, calls: seq<real>, n: nat)
    requires n <= |calls|
    ensures After(b, calls, n).rate == b.rate && After(b, calls, n).capacity == b.capacity
  {
    if n > 0 {
      RateKept(b, calls, n - 1);
    }
  }

  /** Calls in the order of their times, as the lock serializes them, on a full bucket. */
  ghost predicate Orderly(b: Bucket, calls: seq<real>) {
    && b.rate > 0.0 && b.capacity >= 1.0 && b.tokens == b.capacity
    && (forall i :: 0 <= i < |calls| ==> b.last <= calls[i])
    && (forall i, j :: 0 <= i < j < |calls| ==> calls[i] <= calls[j])
  }

  /** What the bucket would hold at call n if it had been full at call i. */
  function SinceFull(b: Bucket, calls: seq<real>, i: nat, n: nat): real
    requires i <= n < |calls|
  {
    b.capacity + Accrued(b.rate, calls[i], calls[n]) - (n - i) as real
  }

  /** The tokens that flow in from one time to another. */
  function Accrued(rate: real, start: real, end: real): real {
    rate * (end - start)
  }

  lemma AccruedAdds(rate: real, start: real, middle: real, end: real)
    ensures Accrued(rate, start, end) == Accrued(rate, start, middle) + Accrued(rate, middle, end)
  {
  }

  lemma BalanceNext(b: Bucket, calls: seq<real>, n: nat)
    requires Orderly(b, calls) && 0 < n < |calls|
    ensures BalanceAt(b, calls, n)
            == Min(BalanceAt(b, calls, n - 1) - 1.0 + Accrued(b.rate, calls[n - 1], calls[n]), b.capacity)
  {
    RateKept(b, calls, n - 1);
    TakeTwice(After(b, calls, n - 1), calls[n - 1], calls[n]);
  }

  lemma TakeTwice(b: Bucket, first: real, second: real)
    requires first <= second
    ensures Balance(Taken(b, first), second)
            == Min(Balance(b, first) - 1.0 + Accrued(b.rate, first, second), b.capacity)
  {
    var taken, elapsed := Taken(b, first), second - first;
    assert taken.tokens == Balance(b, first) - 1.0 && taken.rate == b.rate && taken.capacity == b.capacity;
    assert Elapsed(taken, second) == elapsed;
    Commutes(elapsed, b.rate);
    assert Elapsed(taken, second) * taken.rate == Accrued(b.rate, first, second);
  }

  lemma Commutes(x: real, y: real)
    ensures x * y == y * x
  {
  }

  lemma BalanceFirst(b: Bucket, calls: seq<real>)
    requires Orderly(b, calls) && 0 < |calls|
    ensures BalanceAt(b, calls, 0) == b.capacity
  {
    assert (calls[0] - b.last) * b.rate >= 0.0;
  }

  /** From one call to the next every candidate moves alike. */
  lemma SinceFullNext(b: Bucket, calls: seq<real>, i: nat, n: nat)
    requires i < n < |calls|
    ensures SinceFull(b, calls, i, n) == SinceFull(b, calls, i, n - 1) - 1.0 + Accrued(b.rate, calls[n - 1], calls[n])
  {
    AccruedAdds(b.rate, calls[i], calls[n - 1], calls[n]);
  }

  lemma {:induction false} BalanceBelow(b: Bucket, calls: seq<real>, i: nat, n: nat)
    requires Orderly(b, calls) && i <= n < |calls|
    ensures BalanceAt(b, calls, n) <= SinceFull(b, calls, i, n)
    decreases n
  {
    BalanceAtMostFull(b, calls, n);
    if i < n {
      BalanceBelow(b, calls, i, n - 1);
      BalanceNext(b, calls, n);
      SinceFullNext(b, calls, i, n);
      StaysBelow(BalanceAt(b, calls, n - 1), BalanceAt(b, calls, n), SinceFull(b, calls, i, n - 1),
                 SinceFull(b, calls, i, n),
                 Accrued(b.rate, calls[n - 1], calls[n]), b.capacity);
    } else {
      SinceNow(b, calls, n);
    }
  }

  lemma SinceNow(b: Bucket, calls: seq<real>, n: nat)
    requires n < |calls|
    ensures SinceFull(b, calls, n, n) == b.capacity
  {
  }

  lemma StaysBelow(balance: real, balance': real, since: real, since': real, inflow: real, capacity: real)
    requires balance <= since && balance' == Min(balance - 1.0 + inflow, capacity) && since' == since - 1.0 + inflow
    ensures balance' <= since'
    ensures balance == since ==> balance' == since' || balance' == capacity
  {
  }

  /** The balance is what a bucket full at some earlier call would hold. */
  lemma {:induction false} BalanceReached(b: Bucket, calls: seq<real>, n: nat) returns (i: nat)
    requires Orderly(b, calls) && n < |calls|
    ensures i <= n && BalanceAt(b, calls, n) == SinceFull(b, calls, i, n)
  {
    SinceNow(b, calls, n);
    if n == 0 {
      BalanceFirst(b, calls);
      i := 0;
    } else {
      i := BalanceReached(b, calls, n - 1);
      BalanceNext(b, calls, n);
      SinceFullNext(b, calls, i, n);
      StaysBelow(BalanceAt(b, calls, n - 1), BalanceAt(b, calls, n), SinceFull(b, calls, i, n - 1),
                 SinceFull(b, calls, i, n),
                 Accrued(b.rate, calls[n - 1], calls[n]), b.capacity);
      if BalanceAt(b, calls, n) == b.capacity {
        i := n;
      }
    }
  }

  /** The balance is the least of what a bucket full at some earlier call would hold. */
  lemma BalanceIsMinimum(b: Bucket, calls: seq<real>, n: nat)
    requires Orderly(b, calls) && n < |calls|
    ensures forall i :: 0 <= i <= n ==> BalanceAt(b, calls, n) <= SinceFull(b, calls, i, n)
    ensures exists i :: 0 <= i <= n && BalanceAt(b, calls, n) == SinceFull(b, calls, i, n)
  {
    forall i | 0 <= i <= n ensures BalanceAt(b, calls, n) <= SinceFull(b, calls, i, n) {
      BalanceBelow(b, calls, i, n);
    }
    var i := BalanceReached(b, calls, n);
  }

  // ---- The rate bound ----

  /** In tokens: a grant is the call, or the moment the debt is paid. */
  lemma GrantInTokens(b: Bucket, calls: seq<real>, n: nat)
    requires Orderly(b, calls) && n < |calls|
    ensures Accrued(b.rate, calls[n], Grant(b, calls, n))
            == if BalanceAt(b, calls, n) >= 1.0 then 0.0 else 1.0 - BalanceAt(b, calls, n)
  {
    RateKept(b, calls, n);
  }

  /** The balance of a later call is bounded by that of an earlier one. */
  lemma {:induction false} BalanceFalls(b: Bucket, calls: seq<real>, i: nat, j: nat)
    requires Orderly(b, calls) && i <= j < |calls|
    ensures BalanceAt(b, calls, j) <= BalanceAt(b, calls, i) - (j - i) as real + Accrued(b.rate, calls[i], calls[j])
    decreases j
  {
    if i < j {
      BalanceFalls(b, calls, i, j - 1);
      BalanceNext(b, calls, j);
      AccruedAdds(b.rate, calls[i], calls[j - 1], calls[j]);
      FallsOneMore(BalanceAt(b, calls, i), BalanceAt(b, calls, j - 1), BalanceAt(b, calls, j), j - i - 1,
                   Accrued(b.rate, calls[i], calls[j - 1]), Accrued(b.rate, calls[j - 1], calls[j]));
    } else {
      AccruedNothing(b.rate, calls[i]);
    }
  }

  lemma AccruedNothing(rate: real, time: real)
    ensures Accrued(rate, time, time) == 0.0
  {
    assert time - time == 0.0;
    assert rate * 0.0 == 0.0;
  }

  lemma FallsOneMore(first: real, middle: real, last: real, steps: nat, before: real, after: real)
    requires middle <= first - steps as real + before && last <= middle - 1.0 + after
    ensures last <= first - (steps + 1) as real + (before + after)
  {
  }

  lemma BalanceAtMostFull(b: Bucket, calls: seq<real>, n: nat)
    requires Orderly(b, calls) && n < |calls|
    ensures BalanceAt(b, calls, n) <= b.capacity
  {
    RateKept(b, calls, n);
  }

  /** From grant i to grant j at least as much time passes as the tokens between them take,
      beyond what the bucket can hold. */
  lemma GrantsApart(b: Bucket, calls: seq<real>, i: nat, j: nat)
    requires Orderly(b, calls) && i <= j < |calls|
    ensures (j - i + 1) as real <= b.capacity + Accrued(b.rate, Grant(b, calls, i), Grant(b, calls, j))
    ensures Accrued(b.rate, Grant(b, calls, i), Grant(b, calls, j)) >= 0.0
  {
    var gi, gj := Grant(b, calls, i), Grant(b, calls, j);
    GrantInTokens(b, calls, i);
    GrantInTokens(b, calls, j);
    BalanceFalls(b, calls, i, j);
    BalanceAtMostFull(b, calls, i);
    AccruedAdds(b.rate, calls[i], gi, gj);
    AccruedAdds(b.rate, calls[i], calls[j], gj);
    AccruedForward(b.rate, calls[i], calls[j]);
    Apart(b.capacity, BalanceAt(b, calls, i), BalanceAt(b, calls, j), j - i, Accrued(b.rate, calls[i], calls[j]),
          Accrued(b.rate, calls[i], gi), Accrued(b.rate, calls[j], gj), Accrued(b.rate, gi, gj));
  }

  lemma AccruedForward(rate: real, start: real, end: real)
    requires rate > 0.0
    ensures Accrued(rate, start, end) >= 0.0 <==> start <= end
  {
  }

  /** The arithmetic of two grants. */
  lemma Apart(capacity: real, first: real, second: real, steps: nat, between: real, debt1: real, debt2: real,
              apart: real)
    requires capacity >= 1.0 && first <= capacity && between >= 0.0
    requires debt1 == (if first >= 1.0 then 0.0 else 1.0 - first)
             && debt2 == (if second >= 1.0 then 0.0 else 1.0 - second)
    requires second <= first - steps as real + between
    requires debt1 + apart == between + debt2
    ensures (steps + 1) as real <= capacity + apart && apart >= 0.0
  {
  }

  /** Grants come in the order of the calls. */
  lemma GrantsInOrder(b: Bucket, calls: seq<real>, i: nat, j: nat)
    requires Orderly(b, calls) && i <= j < |calls|
    ensures calls[i] <= Grant(b, calls, i) <= Grant(b, calls, j)
  {
    GrantsApart(b, calls, i, j);
    GrantInTokens(b, calls, i);
    AccruedForward(b.rate, Grant(b, calls, i), Grant(b, calls, j));
    AccruedForward(b.rate, calls[i], Grant(b, calls, i));
  }

  /** The calls whose grant falls into this window. */
  ghost function GrantsIn(b: Bucket, calls: seq<real>, start: real, length: real): set<int>
    requires b.rate > 0.0
  {
    set n | 0 <= n < |calls| && start <= Grant(b, calls, n) <= start + length :: n
  }

  lemma {:induction false} SizeOfAll(s: set<int>, low: int, high: int)
    requires low <= high + 1 && forall n :: n in s ==> low <= n <= high
    ensures |s| <= high - low + 1
    decreases high - low + 1
  {
    if low > high {
      assert forall n: int :: n !in s;
      assert s == {};
    } else {
      SizeOfAll(s - {high}, low, high - 1);
    }
  }

  lemma Extremes(s: set<int>) returns (low: int, high: int)
    requires s != {}
    ensures low in s && high in s && forall n :: n in s ==> low <= n <= high
    decreases |s|
  {
    if forall n: int :: n !in s {
      assert false;
    }
    var n :| n in s;
    if s == {n} {
      low, high := n, n;
    } else {
      var l, h := Extremes(s - {n});
      low, high := if n < l then n else l, if n > h then n else h;
      forall m | m in s ensures low <= m <= high {
        assert m == n || m in s - {n};
      }
    }
  }

  /** The rate bound: no window of any length holds more grants than a full bucket and what
      flows in during the window, the rate times its length. */
  lemma RateBound(b: Bucket, calls: seq<real>, start: real, length: real)
    requires Orderly(b, calls) && length >= 0.0
    ensures |GrantsIn(b, calls, start, length)| as real <= b.capacity + Accrued(b.rate, start, start + length)
  {
    var s := GrantsIn(b, calls, start, length);
    AccruedForward(b.rate, start, start + length);
    if s != {} {
      var low, high := Extremes(s);
      SizeOfAll(s, low, high);
      GrantsApart(b, calls, low, high);
      AccruedWithin(b.rate, start, Grant(b, calls, low), Grant(b, calls, high), start + length);
    }
  }

  lemma AccruedWithin(rate: real, start: real, first: real, last: real, end: real)
    requires rate > 0.0 && start <= first && last <= end
    ensures Accrued(rate, first, last) <= Accrued(rate, start, end)
  {
    AccruedAdds(rate, start, first, end);
    AccruedAdds(rate, first, last, end);
    AccruedForward(rate, start, first);
    AccruedForward(rate, last, end);
  }

  // ---- A new bucket ----

  /** A bucket as it is made holds a tenth of a second's worth, but at least one token: no window holds
      more grants than that and the rate times its length. */
  lemma NewBucketBound(rate: real, now: real, calls: seq<real>, start: real, length: real)
    requires rate > 0.0 && length >= 0.0
    requires (forall i :: 0 <= i < |calls| ==> now <= calls[i])
             && forall i, j :: 0 <= i < j < |calls| ==> calls[i] <= calls[j]
    ensures var burst := rate * 0.1;
            |GrantsIn(Full(rate, now), calls, start, length)| as real
            <= (if burst >= 1.0 then burst else 1.0) + rate * length
  {
    RateBound(Full(rate, now), calls, start, length);
    assert start + length - start == length;
  }

  lemma {:induction false} BalanceAtOnce(rate: real, now: real, calls: seq<real>, n: nat)
    requires rate > 0.0 && n < |calls| && forall i :: 0 <= i < |calls| ==> calls[i] == now
    ensures BalanceAt(Full(rate, now), calls, n) == Full(rate, now).capacity - n as real
  {
    var b := Full(rate, now);
    if n == 0 {
      BalanceFirst(b, calls);
    } else {
      BalanceAtOnce(rate, now, calls, n - 1);
      BalanceNext(b, calls, n);
      AccruedNothing(rate, now);
    }
  }

  /** And it grants as much at once: of calls that all come when it is made, each for which it still
      holds a token is granted without a wait. */
  lemma BurstIsFree(rate: real, now: real, calls: seq<real>, n: nat)
    requires rate > 0.0 && n < |calls| && forall i :: 0 <= i < |calls| ==> calls[i] == now
    requires n as real + 1.0 <= (if rate * 0.1 >= 1.0 then rate * 0.1 else 1.0)
    ensures Grant(Full(rate, now), calls, n) == now
  {
    BalanceAtOnce(rate, now, calls, n);
  }
}
