/** Whole streaming sessions: a sequence of decode steps from an offset-0
    state (a fresh session, or one just reset), the delay alignment of what
    every step reads and returns, and the safety of the consistency
    assertions. */
module Traces {
  import opened Results
  import opened LanguageModel
  import opened Neural
  import opened DelayCache
  import opened Generator

  /** The session state before step `i` of a logged run from `s0`. */
  function Before(s0: State, log: seq<Stepped>, i: nat): State
    requires i <= |log|
  {
    if i == 0 then s0 else log[i - 1].state
  }

  /** Every logged step wrote one token per generated codebook. */
  ghost predicate WrittenShaped(g: LMGen, log: seq<Stepped>)
  {
    forall i :: 0 <= i < |log| ==> |log[i].written| == g.lm.depQ + 1
  }

  /** `t` is what the step on input `x` returns from state `s`. */
  ghost predicate Made(g: LMGen, b: Backend, s: State, x: seq<seq<int>>, t: Stepped)
    requires WellFormed(g, s)
  {
    Step(g, b, Some(s), x) == Success(t)
  }

  /** `log` records the steps `xs` made in order from `s0`: one completed
      step per input, each made from the state the previous one left, and
      each therefore a transition. */
  ghost predicate Logged(g: LMGen, b: Backend, s0: State, xs: seq<seq<seq<int>>>, log: seq<Stepped>)
    requires WellFormed(g, s0)
  {
    && |log| == |xs| && WrittenShaped(g, log)
    && (forall i :: 0 <= i < |xs| ==> ShapeOk(g, xs[i]))
    && (|xs| > 0 ==> 0 < g.lm.depQ < g.lm.NumCodebooks())
    && (forall i {:trigger Before(s0, log, i)} :: 0 <= i <= |xs| ==>
          WellFormed(g, Before(s0, log, i)) && Before(s0, log, i).offset == s0.offset + i)
    && (forall i {:trigger Before(s0, log, i)} :: 0 <= i < |xs| ==>
          Transition(g, Before(s0, log, i), xs[i], log[i]))
    && (forall i {:trigger Made(g, b, Before(s0, log, i), xs[i], log[i])} :: 0 <= i < |xs| ==>
          Made(g, b, Before(s0, log, i), xs[i], log[i]))
  }

  /** Extending a log by one step made from its last state keeps every state
      well formed and the offsets counting steps. */
  lemma LoggedStatesExtend(g: LMGen, b: Backend, s0: State, ys: seq<seq<seq<int>>>, prev: seq<Stepped>,
                           x: seq<seq<int>>, t: Stepped)
    requires WellFormed(g, s0) && Logged(g, b, s0, ys, prev)
    requires WellFormed(g, Before(s0, prev, |prev|)) && Transition(g, Before(s0, prev, |prev|), x, t)
    ensures forall i :: 0 <= i <= |prev| + 1 ==>
              WellFormed(g, Before(s0, prev + [t], i)) && Before(s0, prev + [t], i).offset == s0.offset + i
  {
    var log := prev + [t];
    forall i | 0 <= i <= |log|
      ensures WellFormed(g, Before(s0, log, i)) && Before(s0, log, i).offset == s0.offset + i
    {
      if i <= |prev| {
        assert Before(s0, log, i) == Before(s0, prev, i);
      }
    }
  }

  /** In a log extended by one step, step `i` is still a transition made
      from the state before it. */
  lemma LoggedStepExtends(g: LMGen, b: Backend, s0: State, ys: seq<seq<seq<int>>>, prev: seq<Stepped>,
                          x: seq<seq<int>>, t: Stepped, i: nat)
    requires WellFormed(g, s0) && Logged(g, b, s0, ys, prev)
    requires WellFormed(g, Before(s0, prev, |prev|))
    requires Transition(g, Before(s0, prev, |prev|), x, t) && Made(g, b, Before(s0, prev, |prev|), x, t)
    requires i <= |prev|
    ensures WellFormed(g, Before(s0, prev + [t], i))
    ensures Transition(g, Before(s0, prev + [t], i), (ys + [x])[i], (prev + [t])[i])
    ensures Made(g, b, Before(s0, prev + [t], i), (ys + [x])[i], (prev + [t])[i])
  {
    var log := prev + [t];
    var xs := ys + [x];
    assert Before(s0, log, i) == Before(s0, prev, i);
    if i < |prev| {
      assert xs[i] == ys[i] && log[i] == prev[i];
      assert Made(g, b, Before(s0, prev, i), ys[i], prev[i]);
    } else {
      assert xs[i] == x && log[i] == t;
    }
  }

  /** A logged run extended by one more successful step is logged. */
  lemma LoggedSnoc(g: LMGen, b: Backend, s0: State, ys: seq<seq<seq<int>>>, prev: seq<Stepped>,
                   x: seq<seq<int>>, t: Stepped)
    requires WellFormed(g, s0) && Logged(g, b, s0, ys, prev)
    requires WellFormed(g, Before(s0, prev, |prev|))
    requires Made(g, b, Before(s0, prev, |prev|), x, t)
    ensures Logged(g, b, s0, ys + [x], prev + [t])
  {
    var s := Before(s0, prev, |prev|);
    StepTransition(g, b, s, x);
    assert Transition(g, s, x, t);
    LoggedStatesExtend(g, b, s0, ys, prev, x, t);
    var log := prev + [t];
    var xs := ys + [x];
    forall i | 0 <= i < |xs|
      ensures ShapeOk(g, xs[i]) && Transition(g, Before(s0, log, i), xs[i], log[i])
      ensures Made(g, b, Before(s0, log, i), xs[i], log[i])
    {
      LoggedStepExtends(g, b, s0, ys, prev, x, t, i);
    }
    assert WrittenShaped(g, log);
  }

  /** The same, for a run given with its last input. */
  lemma LoggedExtends(g: LMGen, b: Backend, s0: State, xs: seq<seq<seq<int>>>, prev: seq<Stepped>, t: Stepped)
    requires WellFormed(g, s0) && |xs| > 0 && Logged(g, b, s0, xs[..|xs| - 1], prev)
    requires WellFormed(g, Before(s0, prev, |prev|))
    requires Made(g, b, Before(s0, prev, |prev|), xs[|xs| - 1], t)
    ensures Logged(g, b, s0, xs, prev + [t])
  {
    LoggedSnoc(g, b, s0, xs[..|xs| - 1], prev, xs[|xs| - 1], t);
    assert xs[..|xs| - 1] + [xs[|xs| - 1]] == xs;
  }

  /** The steps `xs` made in order from `s0` inside one streaming context,
      stopping at the first step that raises. */
  function Run(g: LMGen, b: Backend, s0: State, xs: seq<seq<seq<int>>>): (r: Result<seq<Stepped>, StepError>)
    requires WellFormed(g, s0)
    ensures r.Success? ==> Logged(g, b, s0, xs, r.value)
    decreases |xs|
  {
    if |xs| == 0 then Success([])
    else
      var ys := xs[..|xs| - 1];
      match Run(g, b, s0, ys)
      case Failure(e) => Failure(e)
      case Success(prev) =>
        assert WellFormed(g, Before(s0, prev, |prev|));
        match Step(g, b, Some(Before(s0, prev, |prev|)), xs[|xs| - 1])
        case Failure(e) => Failure(e)
        case Success(t) =>
          LoggedExtends(g, b, s0, xs, prev, t);
          Success(prev + [t])
  }

  /** The slot holding position `t` of row `k`. */
  function Slot(g: LMGen, s: State, k: nat, t: nat): int
    requires WellFormed(g, s) && k < g.lm.NumCodebooks()
  {
    s.cache[k][t % g.Capacity()]
  }

  /** After `n = s.offset` logged steps, a generated row holds at each of the
      last `maxDelay + 2` positions the token generated for it by the step
      that reached that position, or its initial token where the warm-up
      seeded it. */
  ghost predicate GeneratedAligned(g: LMGen, s: State, log: seq<Stepped>)
    requires WellFormed(g, s) && s.offset <= |log|
    requires WrittenShaped(g, log)
  {
    forall k: nat, t: nat {:trigger Slot(g, s, k, t)} ::
      k <= g.lm.depQ && k < g.lm.NumCodebooks() && 0 < s.offset && t <= s.offset && s.offset <= t + g.MaxDelay() + 1 ==>
        Slot(g, s, k, t) == if t < s.offset && t <= g.lm.delays[k] then s.initial[k] else log[t - 1].written[k]
  }

  /** The token supplied for external codebook `k` in the input of step `j`. */
  function Supplied(g: LMGen, xs: seq<seq<seq<int>>>, j: nat, k: nat): int
    requires j < |xs| && ShapeOk(g, xs[j]) && g.lm.depQ < k < g.lm.NumCodebooks()
  {
    xs[j][0][k - g.lm.depQ - 1]
  }

  /** After `n = s.offset` steps, an external row holds at each position not
      yet read and already written the token supplied `delays[k]` steps
      before that position. */
  ghost predicate ExternalAligned(g: LMGen, s: State, xs: seq<seq<seq<int>>>)
    requires WellFormed(g, s) && s.offset <= |xs|
    requires forall i :: 0 <= i < |xs| ==> ShapeOk(g, xs[i])
  {
    forall k: nat, t: nat {:trigger Slot(g, s, k, t)} ::
      g.lm.depQ < k < g.lm.NumCodebooks() && s.offset <= t < s.offset + g.lm.delays[k] && g.lm.delays[k] <= t ==>
        Slot(g, s, k, t) == Supplied(g, xs, t - g.lm.delays[k], k)
  }

  /** One transition, seen at one position `t` of a generated row inside the
      window ending at the new offset: the new offset's slot receives the
      generated token, the current slot is seeded during warm-up, and every
      other position keeps its value. */
  lemma GeneratedSlotStep(g: LMGen, s: State, x: seq<seq<int>>, st: Stepped, k: nat, t: nat)
    requires WellFormed(g, s) && Transition(g, s, x, st)
    requires k <= g.lm.depQ
    requires t <= s.offset + 1 && s.offset + 1 <= t + g.MaxDelay() + 1
    ensures Slot(g, st.state, k, t) ==
              if t == s.offset + 1 then st.written[k]
              else if t == s.offset && s.offset <= g.lm.delays[k] then s.initial[k]
              else Slot(g, s, k, t)
  {
    var o := s.offset;
    var ct := g.Capacity();
    DelayBelowCapacity(g, k);
    if t < o + 1 {
      SlotsDistinct(t, o + 1, ct);
      if t < o {
        SlotsDistinct(t, o, ct);
      }
    }
    assert Slot(g, st.state, k, t) == st.state.cache[k][t % ct];
  }

  /** One transition, seen at one position `t` of an external row that is
      not yet read after it: the step's own token lands at
      `offset + delays[k]` and every other such position keeps its value. */
  lemma ExternalSlotStep(g: LMGen, s: State, x: seq<seq<int>>, st: Stepped, k: nat, t: nat)
    requires WellFormed(g, s) && Transition(g, s, x, st)
    requires g.lm.depQ < k < g.lm.NumCodebooks()
    requires s.offset + 1 <= t < s.offset + 1 + g.lm.delays[k]
    ensures Slot(g, st.state, k, t) ==
              if t == s.offset + g.lm.delays[k] then x[0][k - g.lm.depQ - 1]
              else Slot(g, s, k, t)
  {
    var o := s.offset;
    var ct := g.Capacity();
    DelayBelowCapacity(g, k);
    SlotsDistinct(o, t, ct);
    if t < o + g.lm.delays[k] {
      SlotsDistinct(t, o + g.lm.delays[k], ct);
    }
    assert Slot(g, st.state, k, t) == st.state.cache[k][t % ct];
  }

  /** A transition keeps the generated rows aligned. */
  lemma GeneratedAlignedStep(g: LMGen, s: State, x: seq<seq<int>>, log: seq<Stepped>)
    requires WellFormed(g, s) && s.offset < |log|
    requires WrittenShaped(g, log)
    requires Transition(g, s, x, log[s.offset])
    requires GeneratedAligned(g, s, log)
    ensures GeneratedAligned(g, log[s.offset].state, log)
  {
    var s' := log[s.offset].state;
    forall k: nat, t: nat | k <= g.lm.depQ && k < g.lm.NumCodebooks() && 0 < s'.offset && t <= s'.offset && s'.offset <= t + g.MaxDelay() + 1
      ensures Slot(g, s', k, t) == if t < s'.offset && t <= g.lm.delays[k] then s'.initial[k] else log[t - 1].written[k]
    {
      GeneratedSlotStep(g, s, x, log[s.offset], k, t);
    }
  }

  /** A transition keeps the external rows aligned. */
  lemma ExternalAlignedStep(g: LMGen, s: State, xs: seq<seq<seq<int>>>, st: Stepped)
    requires WellFormed(g, s) && s.offset < |xs|
    requires forall i :: 0 <= i < |xs| ==> ShapeOk(g, xs[i])
    requires Transition(g, s, xs[s.offset], st)
    requires ExternalAligned(g, s, xs)
    ensures ExternalAligned(g, st.state, xs)
  {
    forall k: nat, t: nat | g.lm.depQ < k < g.lm.NumCodebooks() && st.state.offset <= t < st.state.offset + g.lm.delays[k] && g.lm.delays[k] <= t
      ensures Slot(g, st.state, k, t) == Supplied(g, xs, t - g.lm.delays[k], k)
    {
      ExternalSlotStep(g, s, xs[s.offset], st, k, t);
    }
  }

  /** The alignment invariant holds after every prefix of a run from an
      offset-0 state, whatever that state's cache holds. */
  lemma {:induction false} RunAligned(g: LMGen, b: Backend, s0: State, xs: seq<seq<seq<int>>>, log: seq<Stepped>, n: nat)
    requires WellFormed(g, s0) && s0.offset == 0
    requires Logged(g, b, s0, xs, log) && n <= |xs|
    ensures && GeneratedAligned(g, Before(s0, log, n), log)
            && ExternalAligned(g, Before(s0, log, n), xs)
  {
    if n > 0 {
      RunAligned(g, b, s0, xs, log, n - 1);
      var s := Before(s0, log, n - 1);
      assert s.offset == n - 1 && Transition(g, s, xs[n - 1], log[n - 1]);
      GeneratedAlignedStep(g, s, xs[n - 1], log);
      ExternalAlignedStep(g, s, xs, log[n - 1]);
      assert Before(s0, log, n) == log[n - 1].state;
    }
  }

  /** What the step after `n` logged steps reads for codebook `k`, given
      that it reads from its state the way every step does. */
  lemma ReadAligned(g: LMGen, b: Backend, s0: State, xs: seq<seq<seq<int>>>, log: seq<Stepped>, n: nat,
                    x: seq<seq<int>>, fed: seq<int>, k: nat)
    requires WellFormed(g, s0) && s0.offset == 0
    requires Logged(g, b, s0, xs, log) && n <= |xs|
    requires ShapeOk(g, x) && ReadFrom(g, Before(s0, log, n), x, fed) && k < g.lm.NumCodebooks()
    ensures fed[k] ==
              if n <= g.lm.delays[k] then InitialToken(g.lm)[k]
              else if k <= g.lm.depQ then log[n - 1].written[k]
              else if g.lm.delays[k] == 0 then x[0][k - g.lm.depQ - 1]
              else Supplied(g, xs, n - g.lm.delays[k], k)
  {
    var s := Before(s0, log, n);
    RunAligned(g, b, s0, xs, log, n);
    assert Slot(g, s, k, n) == s.cache[k][n % g.Capacity()];
  }

  /** What the step after `n` logged steps would read for codebook `k`,
      whatever well-shaped input `x` it is given: the initial token while
      the row is in its warm-up (`n <= delays[k]`); afterwards, for a
      generated row, the token the previous step generated for it, and for
      an external row the token supplied `delays[k]` steps earlier (this
      very input when the delay is 0). */
  lemma FedAligned(g: LMGen, b: Backend, s0: State, xs: seq<seq<seq<int>>>, log: seq<Stepped>, n: nat, x: seq<seq<int>>, k: nat)
    requires WellFormed(g, s0) && s0.offset == 0
    requires Logged(g, b, s0, xs, log) && n <= |xs|
    requires ShapeOk(g, x) && k < g.lm.NumCodebooks()
    ensures Fed(g, Before(s0, log, n), x)[k] ==
              if n <= g.lm.delays[k] then InitialToken(g.lm)[k]
              else if k <= g.lm.depQ then log[n - 1].written[k]
              else if g.lm.delays[k] == 0 then x[0][k - g.lm.depQ - 1]
              else Supplied(g, xs, n - g.lm.delays[k], k)
  {
    FedReads(g, Before(s0, log, n), x);
    ReadAligned(g, b, s0, xs, log, n, x, Fed(g, Before(s0, log, n), x), k);
  }

  /** Latency of the input: step `i` feeds codebook `k` its initial token
      for the first `delays[k] + 1` steps, then the token generated for it
      one step earlier (generated rows) or the token supplied `delays[k]`
      steps earlier (external rows). The tokens supplied at step 0 are
      never fed. */
  lemma StepFedAligned(g: LMGen, b: Backend, s0: State, xs: seq<seq<seq<int>>>, log: seq<Stepped>, i: nat, k: nat)
    requires WellFormed(g, s0) && s0.offset == 0
    requires Logged(g, b, s0, xs, log) && i < |xs|
    requires k < g.lm.NumCodebooks()
    ensures && |log[i].fed| == g.lm.NumCodebooks()
            && log[i].fed[k] ==
                 if i <= g.lm.delays[k] then InitialToken(g.lm)[k]
                 else if k <= g.lm.depQ then log[i - 1].written[k]
                 else Supplied(g, xs, i - g.lm.delays[k], k)
  {
    assert Transition(g, Before(s0, log, i), xs[i], log[i]);
    ReadAligned(g, b, s0, xs, log, i, xs[i], log[i].fed, k);
    if i > g.lm.delays[k] && g.lm.depQ < k && g.lm.delays[k] == 0 {
      assert Supplied(g, xs, i - g.lm.delays[k], k) == xs[i][0][k - g.lm.depQ - 1];
    }
  }

  /** The generated-row half of the invariant at one position. */
  lemma GeneratedSlotAt(g: LMGen, b: Backend, s0: State, xs: seq<seq<seq<int>>>, log: seq<Stepped>, n: nat, k: nat, t: nat)
    requires WellFormed(g, s0) && s0.offset == 0
    requires Logged(g, b, s0, xs, log) && n <= |xs|
    requires k <= g.lm.depQ && k < g.lm.NumCodebooks()
    requires 0 < n && t <= n && n <= t + g.MaxDelay() + 1
    ensures Slot(g, Before(s0, log, n), k, t) ==
              if t < n && t <= g.lm.delays[k] then InitialToken(g.lm)[k] else log[t - 1].written[k]
  {
    RunAligned(g, b, s0, xs, log, n);
  }

  /** Entry `k` of the output of step `i` is the token step `i - Lag(k)`
      generated for codebook `k`. */
  lemma OutputEntryAligned(g: LMGen, b: Backend, s0: State, xs: seq<seq<seq<int>>>, log: seq<Stepped>, i: nat, k: nat)
    requires WellFormed(g, s0) && s0.offset == 0
    requires Logged(g, b, s0, xs, log) && i < |xs| && k <= g.lm.depQ
    requires log[i].output.Some?
    ensures && i >= Lag(g, k)
            && k < |log[i].output.value.out|
            && log[i].output.value.out[k] == log[i - Lag(g, k)].written[k]
  {
    var s := Before(s0, log, i);
    assert s.offset == i && Transition(g, s, xs[i], log[i]);
    var t := i + 1 - Lag(g, k);
    GeneratedSlotAt(g, b, s0, xs, log, i + 1, k, t);
    assert Before(s0, log, i + 1) == log[i].state;
    assert Slot(g, log[i].state, k, t) == log[i].state.cache[k][t % g.Capacity()];
  }

  /** Latency of the output: step `i` returns a vector exactly when
      `i >= maxDelay`, and its entry `k` is the token generated for codebook
      `k` by step `i - maxDelay + delays[k]`, the step whose new offset was
      `offset - maxDelay + delays[k]`. With every delay 0 nothing lags. */
  lemma OutputAligned(g: LMGen, b: Backend, s0: State, xs: seq<seq<seq<int>>>, log: seq<Stepped>, i: nat)
    requires WellFormed(g, s0) && s0.offset == 0
    requires Logged(g, b, s0, xs, log) && i < |xs|
    ensures && (log[i].output.Some? <==> i >= g.MaxDelay())
            && (log[i].output.Some? ==>
                  && |log[i].output.value.out| == g.lm.depQ + 1
                  && forall k :: 0 <= k <= g.lm.depQ ==>
                       log[i].output.value.out[k] == log[i - Lag(g, k)].written[k])
  {
    assert Before(s0, log, i).offset == i && Transition(g, Before(s0, log, i), xs[i], log[i]);
    if log[i].output.Some? {
      forall k | 0 <= k <= g.lm.depQ
        ensures log[i].output.value.out[k] == log[i - Lag(g, k)].written[k]
      {
        OutputEntryAligned(g, b, s0, xs, log, i, k);
      }
    }
  }

  /** Every token a logged step wrote is one its head can produce. */
  lemma LoggedWritesInRange(g: LMGen, b: Backend, s0: State, xs: seq<seq<seq<int>>>, log: seq<Stepped>, i: nat)
    requires WellFormed(g, s0) && SamplersInRange(g.lm, b)
    requires Logged(g, b, s0, xs, log) && i < |log|
    ensures 0 <= log[i].written[0] <= g.lm.textCard
    ensures forall k :: 1 <= k < |log[i].written| ==> 0 <= log[i].written[k] <= g.lm.card
  {
    assert Made(g, b, Before(s0, log, i), xs[i], log[i]);
    StepWritesInRange(g, b, Before(s0, log, i), xs[i]);
  }

  /** An external token that passes the consistency assertions: never the
      ungenerated marker, and at most `card`. */
  predicate ExternalAdmissible(g: LMGen, x: seq<seq<int>>)
    requires SingleStep(x)
  {
    forall q :: 0 <= q < |x[0]| ==> x[0][q] != UngeneratedTokenId && x[0][q] <= g.lm.card
  }

  /** After `n` logged steps from an offset-0 state, the slice the next
      step would read passes the consistency assertions when the external
      tokens do: the seeding covers every slot read before it is written. */
  lemma FedAdmissible(g: LMGen, b: Backend, s0: State, xs: seq<seq<seq<int>>>, log: seq<Stepped>, n: nat, x: seq<seq<int>>)
    requires WellFormed(g, s0) && s0.offset == 0 && SamplersInRange(g.lm, b)
    requires Logged(g, b, s0, xs, log) && n <= |xs|
    requires forall i :: 0 <= i < |xs| ==> ExternalAdmissible(g, xs[i])
    requires ShapeOk(g, x) && ExternalAdmissible(g, x)
    ensures Admissible(g.lm, Fed(g, Before(s0, log, n), x))
  {
    var fed := Fed(g, Before(s0, log, n), x);
    forall k | 0 <= k < |fed|
      ensures fed[k] != UngeneratedTokenId && fed[k] <= (if k == 0 then g.lm.textCard else g.lm.card)
    {
      FedAligned(g, b, s0, xs, log, n, x, k);
      if n > g.lm.delays[k] {
        if k <= g.lm.depQ {
          LoggedWritesInRange(g, b, s0, xs, log, n - 1);
        } else if g.lm.delays[k] > 0 {
          assert ExternalAdmissible(g, xs[n - g.lm.delays[k]]);
        }
      }
    }
  }

  /** Under the same hypotheses every step of a logged run read a slice
      that passes the consistency assertions. */
  lemma LoggedFedAdmissible(g: LMGen, b: Backend, s0: State, xs: seq<seq<seq<int>>>, log: seq<Stepped>, i: nat)
    requires WellFormed(g, s0) && s0.offset == 0 && SamplersInRange(g.lm, b)
    requires Logged(g, b, s0, xs, log) && i < |xs|
    requires forall j :: 0 <= j < |xs| ==> ExternalAdmissible(g, xs[j])
    ensures Admissible(g.lm, log[i].fed)
  {
    var s := Before(s0, log, i);
    assert Made(g, b, s, xs[i], log[i]);
    StepReads(g, b, s, xs[i]);
    FedAdmissible(g, b, s0, xs, log, i, xs[i]);
  }

  /** From a fresh or reset session, with samplers that only pick classes of
      their heads and external tokens that pass the assertions, every step
      succeeds. */
  lemma {:induction false} RunSucceeds(g: LMGen, b: Backend, s0: State, xs: seq<seq<seq<int>>>)
    requires WellFormed(g, s0) && s0.offset == 0
    requires g.lm.depQ > 0 && SamplersInRange(g.lm, b)
    requires forall i :: 0 <= i < |xs| ==> ShapeOk(g, xs[i]) && ExternalAdmissible(g, xs[i])
    ensures Run(g, b, s0, xs).Success?
    decreases |xs|
  {
    if |xs| > 0 {
      var ys := xs[..|xs| - 1];
      var x := xs[|xs| - 1];
      RunSucceeds(g, b, s0, ys);
      var prev := Run(g, b, s0, ys).value;
      FedAdmissible(g, b, s0, ys, prev, |prev|, x);
      AdmissibleSliceLooksUpInRange(g.lm, Fed(g, Before(s0, prev, |prev|), x));
      StepOutcome(g, b, Before(s0, prev, |prev|), x);
      RunSnoc(g, b, s0, xs);
    }
  }

  /** Safety of the read slice: from a fresh or reset session, with samplers
      that only pick classes of their heads and external tokens that pass
      the assertions, no step reads an ungenerated slot or an out-of-range
      token, so every step succeeds whether or not checking is on: neither
      the assertions nor an embedding lookup ever raises. */
  lemma CheckNeverFires(g: LMGen, b: Backend, s0: State, xs: seq<seq<seq<int>>>)
    requires WellFormed(g, s0) && s0.offset == 0
    requires g.lm.depQ > 0 && SamplersInRange(g.lm, b)
    requires forall i :: 0 <= i < |xs| ==> ShapeOk(g, xs[i]) && ExternalAdmissible(g, xs[i])
    ensures Run(g, b, s0, xs).Success?
    ensures forall i :: 0 <= i < |xs| ==> Admissible(g.lm, Run(g, b, s0, xs).value[i].fed)
  {
    RunSucceeds(g, b, s0, xs);
    forall i | 0 <= i < |xs|
      ensures Admissible(g.lm, Run(g, b, s0, xs).value[i].fed)
    {
      LoggedFedAdmissible(g, b, s0, xs, Run(g, b, s0, xs).value, i);
    }
  }

  /** A run one input longer succeeds exactly when the shorter run does
      and the step on the last input from where it stopped does; it is then
      that run followed by that step. */
  lemma RunSnoc(g: LMGen, b: Backend, s0: State, xs: seq<seq<seq<int>>>)
    requires WellFormed(g, s0) && |xs| > 0
    ensures Run(g, b, s0, xs).Success? <==>
              && Run(g, b, s0, xs[..|xs| - 1]).Success?
              && var prev := Run(g, b, s0, xs[..|xs| - 1]).value;
                 Step(g, b, Some(Before(s0, prev, |prev|)), xs[|xs| - 1]).Success?
    ensures Run(g, b, s0, xs).Success? ==>
              var prev := Run(g, b, s0, xs[..|xs| - 1]).value;
              Run(g, b, s0, xs).value == prev + [Step(g, b, Some(Before(s0, prev, |prev|)), xs[|xs| - 1]).value]
  {
  }

  /** Two logs record the same steps, up to the caches they left. */
  ghost predicate SameSteps(l0: seq<Stepped>, l1: seq<Stepped>)
  {
    && |l0| == |l1|
    && forall i :: 0 <= i < |l0| ==>
         && l0[i].fed == l1[i].fed && l0[i].written == l1[i].written && l0[i].output == l1[i].output
         && l0[i].state.offset == l1[i].state.offset && l0[i].state.history == l1[i].state.history
  }

  /** After the same logged steps from two offset-0 states, the next step
      reads the same slice from both, whatever their caches held. */
  lemma NextFedAgrees(g: LMGen, b: Backend, s0: State, s1: State, xs: seq<seq<seq<int>>>,
                      l0: seq<Stepped>, l1: seq<Stepped>, x: seq<seq<int>>)
    requires WellFormed(g, s0) && s0.offset == 0 && Logged(g, b, s0, xs, l0)
    requires WellFormed(g, s1) && s1.offset == 0 && Logged(g, b, s1, xs, l1)
    requires SameSteps(l0, l1) && ShapeOk(g, x)
    ensures Fed(g, Before(s0, l0, |l0|), x) == Fed(g, Before(s1, l1, |l1|), x)
  {
    var n := |l0|;
    var f0 := Fed(g, Before(s0, l0, n), x);
    var f1 := Fed(g, Before(s1, l1, n), x);
    forall k | 0 <= k < |f0|
      ensures f0[k] == f1[k]
    {
      FedAligned(g, b, s0, xs, l0, n, x, k);
      FedAligned(g, b, s1, xs, l1, n, x, k);
    }
  }

  /** Resetting keeps the stale cache, and that is harmless: runs from two
      offset-0 states with the same history (a reset session, and the same
      session with its cache refilled as a fresh one's, say) succeed
      together and make the same steps, whatever the two caches held. */
  lemma {:induction false} CacheIrrelevant(g: LMGen, b: Backend, s0: State, s1: State, xs: seq<seq<seq<int>>>)
    requires WellFormed(g, s0) && s0.offset == 0
    requires WellFormed(g, s1) && s1.offset == 0
    requires s0.history == s1.history
    ensures Run(g, b, s0, xs).Success? <==> Run(g, b, s1, xs).Success?
    ensures Run(g, b, s0, xs).Success? ==> SameSteps(Run(g, b, s0, xs).value, Run(g, b, s1, xs).value)
    decreases |xs|
  {
    if |xs| > 0 {
      var ys := xs[..|xs| - 1];
      var x := xs[|xs| - 1];
      CacheIrrelevant(g, b, s0, s1, ys);
      RunSnoc(g, b, s0, xs);
      RunSnoc(g, b, s1, xs);
      if Run(g, b, s0, ys).Success? && ShapeOk(g, x) {
        var l0 := Run(g, b, s0, ys).value;
        var l1 := Run(g, b, s1, ys).value;
        var n := |l0|;
        var a0 := Before(s0, l0, n);
        var a1 := Before(s1, l1, n);
        assert a0.offset == a1.offset && a0.history == a1.history;
        NextFedAgrees(g, b, s0, s1, ys, l0, l1, x);
        StepDependsOnSlice(g, b, a0, a1, x);
        if Step(g, b, Some(a0), x).Success? {
          var L0 := Run(g, b, s0, xs).value;
          var L1 := Run(g, b, s1, xs).value;
          assert L0[..n] == l0 && L1[..n] == l1;
          assert L0[n] == Step(g, b, Some(a0), x).value && L1[n] == Step(g, b, Some(a1), x).value;
          LastOutputAgrees(g, b, s0, s1, xs, L0, L1);
        }
      } else if Run(g, b, s0, ys).Success? {
        StepOutcome(g, b, Before(s0, Run(g, b, s0, ys).value, |ys|), x);
        StepOutcome(g, b, Before(s1, Run(g, b, s1, ys).value, |ys|), x);
      }
    }
  }

  /** The inductive step of `CacheIrrelevant`: two logs that agree on all
      steps but the last, and on the last up to its gathered vector, agree
      on that vector too, since each entry is a token both runs generated
      alike. */
  lemma LastOutputAgrees(g: LMGen, b: Backend, s0: State, s1: State, xs: seq<seq<seq<int>>>,
                         l0: seq<Stepped>, l1: seq<Stepped>)
    requires WellFormed(g, s0) && s0.offset == 0 && Logged(g, b, s0, xs, l0)
    requires WellFormed(g, s1) && s1.offset == 0 && Logged(g, b, s1, xs, l1)
    requires |xs| > 0 && SameSteps(l0[..|xs| - 1], l1[..|xs| - 1])
    requires var n := |xs| - 1;
             && l0[n].fed == l1[n].fed && l0[n].written == l1[n].written
             && l0[n].state.offset == l1[n].state.offset && l0[n].state.history == l1[n].state.history
             && (l0[n].output.Some? <==> l1[n].output.Some?)
             && (l0[n].output.Some? ==> l0[n].output.value.(out := []) == l1[n].output.value.(out := []))
    ensures SameSteps(l0, l1)
  {
    var n := |xs| - 1;
    OutputAligned(g, b, s0, xs, l0, n);
    OutputAligned(g, b, s1, xs, l1, n);
    if l0[n].output.Some? {
      var o0 := l0[n].output.value;
      var o1 := l1[n].output.value;
      forall k | 0 <= k <= g.lm.depQ
        ensures o0.out[k] == o1.out[k]
      {
        if n - Lag(g, k) < n {
          assert l0[..n][n - Lag(g, k)] == l0[n - Lag(g, k)];
          assert l1[..n][n - Lag(g, k)] == l1[n - Lag(g, k)];
        }
      }
      assert o0.out == o1.out;
      assert o0 == o0.(out := []).(out := o0.out);
    }
    forall i | 0 <= i < n
      ensures l0[i] == l0[..n][i] && l1[i] == l1[..n][i]
    {
    }
  }

  /** The reset case: after `Reset`, a session steps exactly as it would
      had its cache been refilled with ungenerated values as at creation. */
  lemma ResetAsRefilled(g: LMGen, b: Backend, s: State, xs: seq<seq<seq<int>>>)
    requires WellFormed(g, s)
    ensures var r := Reset(g, s);
            var f := r.(cache := InitStreamingState(g).cache);
            && (Run(g, b, r, xs).Success? <==> Run(g, b, f, xs).Success?)
            && (Run(g, b, r, xs).Success? ==> SameSteps(Run(g, b, r, xs).value, Run(g, b, f, xs).value))
  {
    var r := Reset(g, s);
    CacheIrrelevant(g, b, r, r.(cache := InitStreamingState(g).cache), xs);
  }
}
