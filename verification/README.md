# Streaming decode engine of the multi-stream language model

A Dafny model of the per-step generation engine of Moshi's `LMGen`, together
with the integer bookkeeping of `LMModel` it relies on. It covers the delay
ring buffer, the step transition, the depth-decoder chain and the embedding
index rule, and proves properties about them.

The ring buffer has one row per codebook (`nQ + 1` rows) and
`maxDelay + 2` slots per row. Codebook 0 is text. Codebooks `1..depQ` are
generated by the depth decoder, and codebooks `depQ+1..nQ` are supplied from
outside on every call.

One step does the following, in order:

1. Write the external tokens at their delayed slots.
2. Seed the initial token into every row still in its warm-up.
3. Read the aligned slice.
4. Optionally check the slice.
5. Run the temporal model and sample a text token.
6. Run `depQ` depth-decoder calls, each conditioned on the previous token.
7. Advance the offset.
8. Write the generated tokens at the new slot.
9. Once the warm-up is over, gather a delay-aligned output.

The neural parts are opaque functions in a `Backend` record:

- the temporal transformer, a function of every slice fed so far;
- the depth transformer, a function of the step's hidden state and the calls made so far in the chain;
- the two samplers.

Modules:

- `Results`: `Option` and `Result`.
- `Embeddings`: `ScaledEmbedding` construction and the token-to-row rule of its forward pass.
- `LanguageModel`: token ids, codebook counts, module-list sizes, the initial-token vector, the depth-decoder index selection and the consistency predicate.
- `Neural`: opaque hidden states and logits, and the backend.
- `DepthDecoder`: the inner loop of one step.
- `DelayCache`: ring-buffer accesses stated cell by cell, and the modular-slot lemmas.
- `Generator`: session state, creation, reset and the step. `Transition` summarises what any successful step did, independently of the neural parts.
- `Traces`: runs of many steps from an offset-0 state (fresh or reset). It holds the alignment invariant, the latency theorems, safety of the consistency checks and independence from stale cache contents.

Three behaviours of the code are easy to misread:

- **Reset only rewinds the offset.** It does not re-seed the cache (lm.py:358-364). `Traces.CacheIrrelevant` shows that the stale contents never matter.
- **The output has `depQ + 1` entries,** one per generated codebook, not one per codebook (lm.py:524).
- **External tokens supplied at step 0 are never fed.** Each is written at slot `delays[k]`. Step `delays[k]` is still in its warm-up (`offset <= delay`), so it overwrites that slot with the initial token first (lm.py:464). `Traces.StepFedAligned` states the resulting latency exactly.

## Model

| member | source | states |
|---|---|---|
| Embeddings.New | moshi/moshi/models/lm.py:35-41 | construction succeeds exactly when the zero index is negative, and keeps its parameters |
| Embeddings.LookupOf | moshi/moshi/models/lm.py:43-51 | the zero input gives the zero vector; any other negative input reads row 0; an input below the table size reads its own row; anything else is an index error |
| LanguageModel.NewModel | moshi/moshi/models/lm.py:102-122 | a model is built exactly when there is one delay per codebook (`nQ + 1`); otherwise the delay-count error |
| LanguageModel.InitialToken | moshi/moshi/models/lm.py:244-258 | `nQ + 1` entries: the text start token `textCard`, then the audio start token `card` for every audio codebook |
| LanguageModel.TokenIdsInRange | moshi/moshi/models/lm.py:187-222 | in the text and audio tables, `-1` embeds to zero and `-2` reads row 0; both start tokens read their own table row; a synthesized padding id is a class of the text head |
| LanguageModel.DepformerCallFor | moshi/moshi/models/lm.py:323-345 | call `cb` uses projection `cb` (or the single shared one), the text embedding for `cb = 0` and audio embedding `cb - 1` otherwise, and head `cb`; every index lies within its module list's size (lm.py:156-185) |
| LanguageModel.SliceLookups | moshi/moshi/models/lm.py:273-281 | the temporal model looks codebook 0 up in the text table and codebook `k` in an audio table |
| LanguageModel.LooksUpInRangeIff | moshi/moshi/models/lm.py:273-281 | no lookup of a slice raises exactly when its text token is at most `textCard` and every audio token at most `card` (tables of `textCard + 1` and `card + 1` rows, lm.py:120-127) |
| LanguageModel.AdmissibleSliceLooksUpInRange | moshi/moshi/models/lm.py:475-482 | a slice that passes the three consistency assertions never makes an embedding lookup raise |
| DepthDecoder.Iterations | moshi/moshi/models/lm.py:555-569 | iteration `i` calls the depth model for codebook `i`, conditioned on the text token (`i = 0`) or on token `i - 1`; it sees only the hidden state and this chain's calls so far; token `i` is sampled from call `i`'s logits |
| DepthDecoder.DepformerStep | moshi/moshi/models/lm.py:539-578 | exactly `depQ` tokens, logits and calls, the first call conditioned on the text token; stacking an empty chain (`depQ = 0`) fails |
| DepthDecoder.IterationsPrefix | moshi/moshi/models/lm.py:555-569 | the chain is causal: a shorter run is a prefix of a longer one |
| DepthDecoder.ChainInRange | moshi/moshi/models/lm.py:555-569 | with in-range samplers every audio token is in `[0, card)` and every conditioning token reads a real table row |
| DelayCache.Filled | moshi/moshi/models/lm.py:405-410 | a cache of the given shape with every slot equal to the fill value |
| DelayCache.WriteDelayed | moshi/moshi/models/lm.py:446-456 | external row `first + q` changes only at `(offset + delays[first + q]) % capacity`, to token `q` |
| DelayCache.SeedWarmup | moshi/moshi/models/lm.py:460-465 | a row with `offset <= delay` changes only at `offset % capacity`, to its initial token; other rows are unchanged |
| DelayCache.Column | moshi/moshi/models/lm.py:471 | the slice is slot `p` of every row |
| DelayCache.WriteColumn | moshi/moshi/models/lm.py:510-513 | rows below the token count change only at slot `p`; every other cell keeps its value |
| DelayCache.GatherAligned | moshi/moshi/models/lm.py:524-530 | entry `k` is slot `(offset - maxDelay + delays[k]) % capacity` of row `k`, for `k < count` |
| DelayCache.GatherEntry | moshi/moshi/models/lm.py:524-530 | the gathered entry lies `maxDelay - delays[k]` positions behind the offset |
| DelayCache.SlotsDistinct | moshi/moshi/models/lm.py:452-460 | two positions less than one ring apart occupy different slots |
| Generator.Max | moshi/moshi/models/lm.py:389-391 | the maximum delay bounds every delay and is one of them |
| Generator.DelayBelowCapacity | moshi/moshi/models/lm.py:405-410 | every delay is at most the maximum delay, which is at most capacity minus 2 |
| Generator.InitStreamingState | moshi/moshi/models/lm.py:396-416 | `nQ + 1` rows of `maxDelay + 2` slots, all ungenerated; the initial-token vector; offset 0 |
| Generator.Reset | moshi/moshi/models/lm.py:358-364 | offset 0; cache, initial tokens and history untouched |
| Generator.Step | moshi/moshi/models/lm.py:421-435 | no session: `NotStreaming`; a time length other than 1, even with no external codebooks: `StepsNotOne`; wrong external codebook count: `CodebookCountMismatch`; success only past these checks |
| Generator.Advance | moshi/moshi/models/lm.py:437-482 | a consistency error exactly when checking is on and the aligned slice fails the assertions; otherwise generation from that slice, whose only errors are the embedding index error and the empty depth stack |
| Generator.CheckFed | moshi/moshi/models/lm.py:475-482 | no error exactly when the slice is admissible; an error is always a consistency error |
| Generator.Generate | moshi/moshi/models/lm.py:484-513 | an embedding index error exactly when a fed token lies past its table (raised by the temporal model's lookups, lm.py:273-281, before any sampling); otherwise fails exactly when `depQ = 0`; otherwise commits the text token sampled from the temporal model's logits on history plus slice, and the chain it seeds |
| Generator.Emit | moshi/moshi/models/lm.py:516-532 | no output exactly while `offset <= maxDelay`; otherwise `depQ + 1` entries gathered delay-aligned, with the raw model outputs |
| Generator.Commit | moshi/moshi/models/lm.py:510-532 | offset + 1; slice appended to the history; text then audio tokens written at the new slot; output gathered from the new cache |
| Generator.Lag | moshi/moshi/models/lm.py:524-526 | the lag of codebook `k` plus its delay is the maximum delay |
| Generator.FedReads | moshi/moshi/models/lm.py:446-471 | the fed slice, cell by cell: initial token in warm-up; the current call's token for an undelayed external row; otherwise the slot as the step found it |
| Generator.StepOutcome | moshi/moshi/models/lm.py:421-505 | a step succeeds exactly when the input is well shaped, `depQ > 0`, with checking on the slice is admissible, and every token of the slice lies inside its embedding table |
| Generator.StepAdvances | moshi/moshi/models/lm.py:510-513 | offset + 1, initial tokens kept, fed slice appended to the history, `depQ + 1` tokens written |
| Generator.StepReads | moshi/moshi/models/lm.py:466-482 | the step fed the aligned slice it read, and with checking on that slice is admissible |
| Generator.PreparedCell | moshi/moshi/models/lm.py:446-465 | before the read, seeding takes priority over the external write; every other cell is unchanged |
| Generator.CommitWrites | moshi/moshi/models/lm.py:510-513 | committing changes only the new slot of rows `0..depQ` |
| Generator.StepWritesCell | moshi/moshi/models/lm.py:446-513 | one cell after a step: generated token at the new slot of rows `0..depQ`, else initial token at the current slot in warm-up, else the external token at its delayed slot, else unchanged |
| Generator.StepWrites | moshi/moshi/models/lm.py:446-513 | the same write discipline for every cell of the cache |
| Generator.StepCommits | moshi/moshi/models/lm.py:484-513 | a successful step commits the text token sampled from the temporal model's logits on history plus the fed slice, and the chain it seeds |
| Generator.CommitEmits | moshi/moshi/models/lm.py:516-530 | output exactly past the warm-up, with entry `k` read `Lag(k)` positions behind the new offset |
| Generator.StepEmits | moshi/moshi/models/lm.py:516-530 | a step returns an output exactly when its new offset exceeds the maximum delay; the output has `depQ + 1` entries, each `Lag(k)` positions behind |
| Generator.StepTransition | moshi/moshi/models/lm.py:421-532 | every successful step satisfies the backend-independent summary `Transition` (read, write, bookkeeping and output disciplines) |
| Generator.StepDependsOnSlice | moshi/moshi/models/lm.py:484-532 | two sessions at the same offset and history that read the same slice succeed together and agree on everything except caches and gathered vectors |
| Generator.StepWritesInRange | moshi/moshi/models/lm.py:490-513 | with in-range samplers, the text token is a text-head class and every audio token is in `[0, card)` |
| Generator.StepIndexError | moshi/moshi/models/lm.py:471-488 | a well-shaped step raises the embedding index error exactly when checking is off and the slice holds a text token above `textCard` or an audio token above `card` |
| Generator.StepChecks | moshi/moshi/models/lm.py:475-482 | with checking on, a consistency error exactly when the slice fails the assertions; with checking off, never |
| Generator.ZeroDelaysNoLag | moshi/moshi/models/lm.py:516-530 | with every delay 0, every step returns an output equal to the tokens it just generated |
| Traces.Run | moshi/moshi/models/lm.py:421-532 | a successful run is a log of one transition per input, each made from the state the previous one left |
| Traces.GeneratedSlotStep | moshi/moshi/models/lm.py:460-513 | in the window ending at the new offset, a generated row gets the new token at the new position and the seeded initial token in warm-up; every other position keeps its value |
| Traces.ExternalSlotStep | moshi/moshi/models/lm.py:446-465 | among external positions not yet read, only `offset + delay` changes, to the current call's token |
| Traces.GeneratedAlignedStep | moshi/moshi/models/lm.py:460-513 | a transition preserves the generated-row alignment invariant |
| Traces.ExternalAlignedStep | moshi/moshi/models/lm.py:446-465 | a transition preserves the external-row alignment invariant |
| Traces.RunAligned | moshi/moshi/models/lm.py:446-513 | after `n` steps from an offset-0 state, each generated-row slot of the last `maxDelay + 2` positions holds the token generated for that position (or the warm-up initial token); each pending external slot holds the token supplied `delay` steps earlier |
| Traces.ReadAligned | moshi/moshi/models/lm.py:460-471 | the slice read after `n` steps, by codebook: initial token while `n <= delay`; else the previous step's token (generated row) or the token supplied `delay` steps earlier (external row) |
| Traces.FedAligned | moshi/moshi/models/lm.py:460-471 | the same, for the slice the next step would read on any well-shaped input |
| Traces.StepFedAligned | moshi/moshi/models/lm.py:446-471 | input latency: step `i` feeds the initial token while `i <= delay`, then the token generated one step earlier or supplied `delay` steps earlier; step-0 external tokens are never fed |
| Traces.GeneratedSlotAt | moshi/moshi/models/lm.py:510-513 | the generated-row invariant read at one position |
| Traces.OutputEntryAligned | moshi/moshi/models/lm.py:516-530 | entry `k` of step `i`'s output is the token step `i - Lag(k)` generated for codebook `k` |
| Traces.OutputAligned | moshi/moshi/models/lm.py:516-530 | output latency: step `i` returns a vector exactly when `i >= maxDelay`, with `depQ + 1` entries; entry `k` is the token generated by the step whose new offset was `offset - maxDelay + delays[k]` |
| Traces.LoggedWritesInRange | moshi/moshi/models/lm.py:490-513 | with in-range samplers, every logged text token is at most `textCard` and every audio token lies in `[0, card]` |
| Traces.FedAdmissible | moshi/moshi/models/lm.py:475-482 | after any logged prefix, the next slice passes the assertions when the external tokens do; no ungenerated value is read |
| Traces.LoggedFedAdmissible | moshi/moshi/models/lm.py:475-482 | every slice a logged run fed passes the consistency assertions |
| Traces.RunSucceeds | moshi/moshi/models/lm.py:421-513 | from an offset-0 state, with in-range samplers, admissible well-shaped inputs and `depQ > 0`, every step succeeds |
| Traces.CheckNeverFires | moshi/moshi/models/lm.py:475-482 | under those hypotheses the run succeeds and no step ever reads `-2` or an out-of-range token, so neither the check nor an embedding lookup ever raises |
| Traces.NextFedAgrees | moshi/moshi/models/lm.py:358-364 | after the same steps from two offset-0 states, the next slice is the same whatever the caches held |
| Traces.LastOutputAgrees | moshi/moshi/models/lm.py:516-530 | two logs that agree on all earlier steps also agree on the last step's gathered vector |
| Traces.CacheIrrelevant | moshi/moshi/models/lm.py:358-364 | runs from two offset-0 states with the same history succeed together and make the same steps, whatever their caches hold |
| Traces.ResetAsRefilled | moshi/moshi/models/lm.py:358-364 | after a reset, a session makes the same steps as the same session with its cache refilled with ungenerated values, and succeeds exactly when that one does |

## Left out

- The batch dimension. Every row of a batch shares one offset and the same index arithmetic, so one row is modelled.
- The rank-3 assertion on the input (lm.py:429). The input of one batch row is a `seq<seq<int>>` indexed time first, then codebook. This transposes the source's codebook-by-time layout, so that the time length survives when there are no external codebooks. Only the time-length and codebook-count checks remain.
- Negative delays. Delays are `nat`; the code assumes non-negative delays, and with them every modulus operand is non-negative, so Dafny's `%` agrees with Python's.
- Neural numerics: transformer internals, embedding tables, norms and linear layers in `forward_text` and `forward_depformer`. They are opaque functions of the tokens fed (`Backend`). The depth transformer's per-step streaming scope is a fresh state per step, which is why `depformer` sees only this chain's calls.
- `sample_token`, temperatures and top-k. A sampler is an arbitrary function of its logits; the randomness is folded into the opaque logits. `SamplersInRange` is the hypothesis that a sample is a class of its head, used only by the safety theorems.
- `CUDAGraphed` (lm.py:413-414): a transparent replay wrapper.
- Framework plumbing: the streaming context managers, the reset propagated to the temporal transformer's own cache, `torch.no_grad`, devices and logging. `State.history` stands for the temporal transformer's cache, and `Reset` leaves it as it is.
- Generator.Emit: the returned input slice is a value. In the code it is a view of cache slot `offset % capacity` (lm.py:471, 531-532), which later steps overwrite in place, at the latest within `capacity` steps. The model returns that slot's contents at the moment the step returns.
- State after a raised error. A failing step returns the error without the state it partly mutated; the session must be discarded.
- `LMNoStream` (lm.py:580-612): it calls a `depformer_step` that exists only in commented-out code, so it cannot run.
- The training-mode assertion in the constructor (lm.py:379) and parameter counts.
- How the text padding id is used downstream. Only its value and the text head size are modelled.
