/** The depth decoder loop: for one timestep, one call of the depth
    transformer per generated audio codebook, each conditioned on the token
    sampled just before it (the text token for the first call). */
module DepthDecoder {
  import opened Results
  import opened LanguageModel
  import opened Neural

  /** The tokens, logits and depth-transformer calls of a chain, in codebook
      order. */
  datatype Chain = Chain(tokens: seq<int>, logits: seq<Logits>, calls: seq<DepformerCall>)

  /** The first `n` iterations of the loop. Call `i` is made for codebook `i`
      and conditioned on the previously sampled token; the depth transformer
      sees this step's hidden representation and the calls of this chain
      only, and token `i` is sampled from the logits of call `i`. */
  function Iterations(m: LMModel, b: Backend, hidden: Hidden, text: int, n: nat): (c: Chain)
    requires n <= m.depQ
    ensures |c.tokens| == n && |c.logits| == n && |c.calls| == n
    ensures forall i :: 0 <= i < n ==>
              c.calls[i] == DepformerCallFor(m, i, if i == 0 then text else c.tokens[i - 1])
    ensures forall i :: 0 <= i < n ==> c.logits[i] == b.depformer(hidden, c.calls[..i + 1])
    ensures forall i :: 0 <= i < n ==> c.tokens[i] == b.sampleAudio(c.logits[i])
    decreases n
  {
    if n == 0 then Chain([], [], [])
    else
      var c := Iterations(m, b, hidden, text, n - 1);
      var prev := if n == 1 then text else c.tokens[n - 2];
      var calls := c.calls + [DepformerCallFor(m, n - 1, prev)];
      var logits := b.depformer(hidden, calls);
      assert forall i :: 0 <= i < n - 1 ==> c.logits[i] == b.depformer(hidden, calls[..i + 1]) by {
        forall i | 0 <= i < n - 1 ensures c.logits[i] == b.depformer(hidden, calls[..i + 1]) {
          assert calls[..i + 1] == c.calls[..i + 1];
        }
      }
      assert calls[..n] == calls;
      Chain(c.tokens + [b.sampleAudio(logits)], c.logits + [logits], calls)
  }

  /** The whole loop: exactly `depQ` iterations. Stacking the results of an
      empty loop raises, which `None` stands for. */
  function DepformerStep(m: LMModel, b: Backend, hidden: Hidden, text: int): (r: Option<Chain>)
    ensures r.None? <==> m.depQ == 0
    ensures r.Some? ==> |r.value.tokens| == m.depQ && |r.value.logits| == m.depQ && |r.value.calls| == m.depQ
    ensures r.Some? ==> r.value.calls[0].token == text && r.value.calls[0].emb == DepformerTextEmb
  {
    if m.depQ == 0 then None else Some(Iterations(m, b, hidden, text, m.depQ))
  }

  /** The chain is causal: running fewer iterations yields a prefix of the
      longer run, so token `i` never depends on a later token. */
  lemma {:induction false} IterationsPrefix(m: LMModel, b: Backend, hidden: Hidden, text: int, n: nat, n': nat)
    requires n <= n' <= m.depQ
    ensures Iterations(m, b, hidden, text, n) ==
            var c := Iterations(m, b, hidden, text, n');
            Chain(c.tokens[..n], c.logits[..n], c.calls[..n])
    decreases n' - n
  {
    if n < n' {
      IterationsPrefix(m, b, hidden, text, n, n' - 1);
      var c := Iterations(m, b, hidden, text, n');
      var c' := Iterations(m, b, hidden, text, n' - 1);
      assert c.tokens[..n' - 1] == c'.tokens;
      assert c.logits[..n' - 1] == c'.logits;
      assert c.calls[..n' - 1] == c'.calls;
      assert c.tokens[..n] == c'.tokens[..n];
      assert c.logits[..n] == c'.logits[..n];
      assert c.calls[..n] == c'.calls[..n];
    } else {
      var c := Iterations(m, b, hidden, text, n');
      assert c.tokens[..n] == c.tokens;
      assert c.logits[..n] == c.logits;
      assert c.calls[..n] == c.calls;
    }
  }

  /** With in-range samplers and a text token the text head can produce,
      every audio token is a real audio class and every conditioning token
      is looked up inside its embedding table. */
  lemma ChainInRange(m: LMModel, b: Backend, hidden: Hidden, text: int)
    requires SamplersInRange(m, b)
    requires 0 <= text < m.TextHeadSize()
    ensures var c := Iterations(m, b, hidden, text, m.depQ);
            && (forall i :: 0 <= i < m.depQ ==> 0 <= c.tokens[i] < m.card)
            && (forall i :: 0 <= i < m.depQ ==> c.calls[i].lookup.Row? && c.calls[i].lookup.index == c.calls[i].token)
  {
  }
}
