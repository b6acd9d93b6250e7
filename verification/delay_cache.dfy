/** The delay ring buffer: one row per codebook, each a ring of `capacity`
    slots addressed modulo the capacity. Each operation below is one of the
    buffer accesses the decode step makes, stated cell by cell. */
module DelayCache {

  /** `rows` rows of exactly `capacity` slots each. */
  predicate Shaped(cache: seq<seq<int>>, rows: nat, capacity: nat)
  {
    |cache| == rows && forall k :: 0 <= k < |cache| ==> |cache[k]| == capacity
  }

  /** A buffer with every slot holding `v`. */
  function Filled(rows: nat, capacity: nat, v: int): (c: seq<seq<int>>)
    ensures Shaped(c, rows, capacity)
    ensures forall k, p :: 0 <= k < rows && 0 <= p < capacity ==> c[k][p] == v
  {
    seq(rows, _ => seq(capacity, _ => v))
  }

  /** Row `first + q` receives `tokens[q]` at its delayed slot
      `(offset + delays[first + q]) % capacity`; nothing else changes. */
  function WriteDelayed(cache: seq<seq<int>>, delays: seq<nat>, first: nat, tokens: seq<int>,
                        offset: nat, capacity: nat): (c: seq<seq<int>>)
    requires capacity > 0 && Shaped(cache, |delays|, capacity)
    requires first + |tokens| <= |delays|
    ensures Shaped(c, |delays|, capacity)
    ensures forall k, p :: 0 <= k < |c| && 0 <= p < capacity ==>
              c[k][p] == if first <= k < first + |tokens| && p == (offset + delays[k]) % capacity
                         then tokens[k - first] else cache[k][p]
  {
    seq(|cache|, k requires 0 <= k < |cache| =>
      if first <= k < first + |tokens| then cache[k][(offset + delays[k]) % capacity := tokens[k - first]]
      else cache[k])
  }

  /** Every row still in its warm-up (`offset <= delays[k]`) receives its
      initial token at the undelayed slot `offset % capacity`. */
  function SeedWarmup(cache: seq<seq<int>>, delays: seq<nat>, initial: seq<int>,
                      offset: nat, capacity: nat): (c: seq<seq<int>>)
    requires capacity > 0 && Shaped(cache, |delays|, capacity) && |initial| == |delays|
    ensures Shaped(c, |delays|, capacity)
    ensures forall k, p :: 0 <= k < |c| && 0 <= p < capacity ==>
              c[k][p] == if offset <= delays[k] && p == offset % capacity then initial[k] else cache[k][p]
  {
    seq(|cache|, k requires 0 <= k < |cache| =>
      if offset <= delays[k] then cache[k][offset % capacity := initial[k]] else cache[k])
  }

  /** The slot `p` of every row: the aligned vector the model is fed. */
  function Column(cache: seq<seq<int>>, p: nat): (r: seq<int>)
    requires forall k :: 0 <= k < |cache| ==> p < |cache[k]|
    ensures |r| == |cache|
    ensures forall k :: 0 <= k < |r| ==> r[k] == cache[k][p]
  {
    seq(|cache|, k requires 0 <= k < |cache| => cache[k][p])
  }

  /** Row `k < |tokens|` receives `tokens[k]` at slot `p`, with no delay. */
  function WriteColumn(cache: seq<seq<int>>, tokens: seq<int>, p: nat, rows: nat, capacity: nat): (c: seq<seq<int>>)
    requires Shaped(cache, rows, capacity) && p < capacity && |tokens| <= rows
    ensures Shaped(c, rows, capacity)
    ensures forall k, q :: 0 <= k < rows && 0 <= q < capacity ==>
              c[k][q] == if k < |tokens| && q == p then tokens[k] else cache[k][q]
  {
    seq(|cache|, k requires 0 <= k < |cache| =>
      if k < |tokens| then cache[k][p := tokens[k]] else cache[k])
  }

  /** Codebook `k < count` is read at `(offset - maxDelay + delays[k]) % capacity`,
      which undoes the codebook's delay relative to the largest one. */
  function GatherAligned(cache: seq<seq<int>>, delays: seq<nat>, count: nat, offset: nat,
                         maxDelay: nat, capacity: nat): (r: seq<int>)
    requires capacity > 0 && Shaped(cache, |delays|, capacity)
    requires count <= |delays| && offset > maxDelay
    ensures |r| == count
    ensures forall k :: 0 <= k < count ==> r[k] == cache[k][(offset - maxDelay + delays[k]) % capacity]
  {
    seq(count, k requires 0 <= k < count => cache[k][(offset - maxDelay + delays[k]) % capacity])
  }

  /** Entry `k` of a gathered vector lies `lag` positions behind `offset`,
      where `lag` is what the codebook's delay falls short of the largest. */
  lemma GatherEntry(cache: seq<seq<int>>, delays: seq<nat>, count: nat, offset: nat,
                    maxDelay: nat, capacity: nat, k: nat, lag: nat)
    requires capacity > 0 && Shaped(cache, |delays|, capacity)
    requires count <= |delays| && offset > maxDelay
    requires k < count && lag + delays[k] == maxDelay
    ensures GatherAligned(cache, delays, count, offset, maxDelay, capacity)[k] == cache[k][(offset - lag) % capacity]
  {
  }

  lemma {:induction false} MulAtLeast(c: nat, k: nat)
    requires k >= 1
    ensures c * k >= c
    decreases k
  {
    if k > 1 {
      MulAtLeast(c, k - 1);
      assert c * k == c * (k - 1) + c;
    }
  }

  lemma {:induction false} MulNonPositive(c: nat, k: int)
    requires k <= 0
    ensures c * k <= 0
    decreases -k
  {
    if k < 0 {
      MulNonPositive(c, k + 1);
      assert c * k == c * (k + 1) - c;
    }
  }

  /** No multiple of `c` lies strictly between 0 and `c`. */
  lemma MulGap(c: nat, k: int)
    requires c > 0
    ensures c * k <= 0 || c * k >= c
  {
    if k >= 1 {
      MulAtLeast(c, k);
    } else {
      MulNonPositive(c, k);
    }
  }

  /** Two distinct positions less than a whole ring apart occupy distinct
      slots. */
  lemma SlotsDistinct(a: nat, b: nat, capacity: nat)
    requires 0 < capacity && a < b < a + capacity
    ensures a % capacity != b % capacity
  {
    var k := b / capacity - a / capacity;
    assert b - a == capacity * k + (b % capacity - a % capacity);
    MulGap(capacity, k);
  }
}
