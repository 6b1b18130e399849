/** internal/budget/window.go: the circular buffer, updated in place. */
module RollingWindows {
  import opened Sums
  import opened Ring

  /** Index of the bucket k places behind head h in a circle of n. */
  function Behind(h: nat, k: nat, n: nat): (i: nat)
    requires h < n && k < n
    ensures i < n
  {
    if k <= h then h - k else h - k + n
  }

  /** The buckets read backwards from the head. */
  function Rotated(s: seq<int>, h: nat): (r: seq<int>)
    requires h < |s|
    ensures |r| == |s|
    ensures forall k :: 0 <= k < |s| ==> r[k] == s[Behind(h, k, |s|)]
  {
    seq(|s|, k requires 0 <= k < |s| => s[Behind(h, k, |s|)])
  }

  /** The next index around the circle. */
  function Next(h: nat, n: nat): (i: nat)
    requires h < n
    ensures i == if h + 1 == n then 0 else h + 1
  {
    (h + 1) % n
  }

  /** Moving the head one place on and zeroing it forgets the oldest bucket. */
  lemma RotateOne(s: seq<int>, h: nat, h': nat)
    requires h < |s| && h' == Next(h, |s|)
    ensures s[h'] == Rotated(s, h)[|s| - 1]
    ensures Rotated(s[h' := 0], h') == [0] + Rotated(s, h)[..|s| - 1]
  {
    var rest := [0] + Rotated(s, h)[..|s| - 1];
    forall k | 0 <= k < |s|
      ensures Rotated(s[h' := 0], h')[k] == rest[k]
    {
      if k > 0 {
        assert Behind(h', k, |s|) == Behind(h, k - 1, |s|) != h';
      }
    }
  }

  /** The oldest bucket leaves the total and an empty head takes its place. */
  function EvictedOne(r: Ring): (e: Ring)
    requires |r.slots| >= 1
    ensures |e.slots| == |r.slots|
  {
    var last := |r.slots| - 1;
    r.(slots := [0] + r.slots[..last], total := r.total - r.slots[last])
  }

  function Evicted(r: Ring, times: nat): (e: Ring)
    requires |r.slots| >= 1
    ensures |e.slots| == |r.slots|
  {
    if times == 0 then r else EvictedOne(Evicted(r, times - 1))
  }

  /** The loop of single evictions is the one-shot shift of Ring.Advanced. */
  lemma {:induction false} EvictedShifts(r: Ring, times: nat)
    requires times < |r.slots|
    ensures
      var keep := |r.slots| - times;
      Evicted(r, times) == Ring(Zeros(times) + r.slots[..keep], r.headTime, r.total - Sum(r.slots[keep..]))
  {
    var n := |r.slots|;
    if times > 0 {
      EvictedShifts(r, times - 1);
      assert r.slots[n - times..][1..] == r.slots[n - times + 1..];
      assert [0] + (Zeros(times - 1) + r.slots[..n - times + 1])[..n - 1] == Zeros(times) + r.slots[..n - times];
    }
  }

  lemma AdvancedEvicts(r: Ring, now: int)
    requires |r.slots| >= 1 && r.headTime < now
    ensures
      var passed := now - r.headTime;
      Advanced(r, now) == if passed >= |r.slots| then Fresh(|r.slots|, now) else Evicted(r, passed).(headTime := now)
  {
    if now - r.headTime < |r.slots| {
      EvictedShifts(r, now - r.headTime);
    }
  }

  /** Moving the head on in the buffer is evicting the oldest slot of its view. */
  lemma HeadMoves(s: seq<int>, h: nat, h': nat, time: int, total: int)
    requires h < |s| && h' == Next(h, |s|)
    ensures Ring(Rotated(s[h' := 0], h'), time, total - s[h']) == EvictedOne(Ring(Rotated(s, h), time, total))
  {
    RotateOne(s, h, h');
  }

  class RollingWindow {
    const buckets: array<int>
    var headIdx: nat
    var headTime: int
    var totalTokens: int
    const burstMax: int
    var burstRemaining: int

    ghost predicate Valid()
      reads this, buckets
    {
      headIdx < buckets.Length
    }

    /** The abstract value: what Ring.dfy reasons about. */
    ghost function View(): (r: Ring)
      requires Valid()
      reads this, buckets
      ensures |r.slots| == buckets.Length
    {
      Ring(Rotated(buckets[..], headIdx), headTime, totalTokens)
    }

    constructor (windowSeconds: nat, burstTokens: int, now: int)
      requires windowSeconds >= 1
      ensures Valid() && fresh(buckets)
      ensures View() == Fresh(windowSeconds, now)
      ensures burstMax == burstTokens == burstRemaining
    {
      buckets := new int[windowSeconds](_ => 0);
      headIdx := 0;
      headTime := now;
      totalTokens := 0;
      burstMax := burstTokens;
      burstRemaining := burstTokens;
    }

    method Advance(now: int)
      requires Valid()
      modifies this`headIdx, this`headTime, this`totalTokens, buckets
      ensures Valid() && View() == Advanced(old(View()), now)
    {
      if now <= headTime {
        return;
      }
      var elapsed := now - headTime;
      AdvancedEvicts(View(), now);
      if elapsed >= buckets.Length {
        Clear();
      } else {
        Evict(elapsed);
      }
      headTime := now;
    }

    /** The whole window has passed: zero everything. */
    method Clear()
      requires Valid()
      modifies this`headIdx, this`totalTokens, buckets
      ensures Valid() && View() == Fresh(buckets.Length, headTime)
    {
      for i := 0 to buckets.Length
        invariant forall j :: 0 <= j < i ==> buckets[j] == 0
      {
        buckets[i] := 0;
      }
      totalTokens := 0;
      headIdx := 0;
    }

    /** Zero the buckets that expired in `elapsed` seconds, taking each out of the total. */
    method Evict(elapsed: nat)
      requires Valid()
      modifies this`headIdx, this`totalTokens, buckets
      ensures Valid() && View() == Evicted(old(View()), elapsed)
    {
      for i := 0 to elapsed
        invariant Valid() && View() == Evicted(old(View()), i)
      {
        EvictHead();
      }
    }

    /** One turn of the eviction loop: the oldest bucket becomes the new, empty head. */
    method EvictHead()
      requires Valid()
      modifies this`headIdx, this`totalTokens, buckets
      ensures Valid() && View() == EvictedOne(old(View()))
    {
      ghost var before := buckets[..];
      headIdx := Next(headIdx, buckets.Length);
      HeadMoves(before, old(headIdx), headIdx, headTime, totalTokens);
      totalTokens := totalTokens - buckets[headIdx];
      buckets[headIdx] := 0;
      assert buckets[..] == before[headIdx := 0];
    }

    method Add(now: int, tokens: int)
      requires Valid()
      modifies this`headIdx, this`headTime, this`totalTokens, buckets
      ensures Valid() && View() == Added(old(View()), now, tokens)
    {
      Advance(now);
      ghost var v := View();
      ghost var before := buckets[..];
      buckets[headIdx] := buckets[headIdx] + tokens;
      totalTokens := totalTokens + tokens;
      if totalTokens < 0 {
        totalTokens := 0;
      }
      assert buckets[..] == before[headIdx := before[headIdx] + tokens];
      assert View().slots == v.slots[0 := v.slots[0] + tokens];
    }

    method Total(now: int) returns (total: int)
      requires Valid()
      modifies this`headIdx, this`headTime, this`totalTokens, buckets
      ensures Valid() && View() == Advanced(old(View()), now)
      ensures total == Visible(View())
    {
      Advance(now);
      if totalTokens < 0 {
        return 0;
      }
      return totalTokens;
    }

    method ConsumeBurst(tokens: int) returns (ok: bool)
      modifies this`burstRemaining
      ensures ok == (tokens <= old(burstRemaining))
      ensures burstRemaining == if ok then old(burstRemaining) - tokens else old(burstRemaining)
    {
      if burstRemaining < tokens {
        return false;
      }
      burstRemaining := burstRemaining - tokens;
      return true;
    }

    method ReplenishBurst(tokens: int)
      modifies this`burstRemaining
      ensures burstRemaining == Min(old(burstRemaining) + tokens, burstMax)
    {
      var newVal := burstRemaining + tokens;
      if newVal > burstMax {
        newVal := burstMax;
      }
      burstRemaining := newVal;
    }
  }
}
