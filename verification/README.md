# GPT-2 inference: KV-cached sessions, the linear worker pool and greedy generation

A Dafny model, with proofs, of a small C++ GPT-2 inference engine. It follows one refinement chain:

1. **Full-prefix inference** (`GPT2Model::forward`) recomputes every row of every layer. Each kernel is an
   imperative method over arrays, proved against a row function that fixes the order of every reduction
   (`Reference.dfy`); `forward` is proved against the matrices of `FullPrefix.dfy`, which are then proved causal.
2. **Cached inference** (`InferenceSession`) consumes one token at a time over a `[layer][position][channel]`
   cache. Its class invariant says that the cache holds, for every layer and every consumed position, the key and
   value rows that the full pass computes; from it follows that every successful call of every run returns exactly
   the logits of a full pass over the tokens consumed since the last reset.
3. **Parallel linear layers** (`LinearExecutor`) are a transition system: any number of client threads, N-1
   workers, one output channel written per step, two condition variables with explicit sleepers and spurious
   wakeups, a generation counter modulo any M >= 2, and shards that may fail at any moment. Every interleaving is
   proved to have the effect of scalar submissions one after another, to lose no wakeup and never to deadlock, and
   every submission to return on every fair infinite run.
4. **Greedy generation** in full and cached mode produces the same tokens and consistent dumps.

Arithmetic is a parameter: `Arithmetic.Ops<F>` is a record of functions with no law assumed, so the equalities
above are equalities of the very results, rounding and NaN included, as long as each float operation is a function
of its operands. What the row functions compute is then said over exact reals, in plain sums and products of the
entries of the storage: `ExactKernels` for linear, layer norm and gelu, `Softmax` for attention, `ExactModel` for a
layer and the logits. Sizes are mathematical integers.
Every product and every base offset that the two inference paths compute without a check is assigned to a
`Words.Word`, the range of a 64-bit `size_t`, or bounded by a precondition, and an index is a base plus less than a
row inside a buffer, so none of them can wrap.

## Files

| files | contents |
|---|---|
| `Wrappers`, `Arithmetic`, `Words`, `Matrices` | results and errors, the arithmetic parameter, machine words, flat row-major buffers |
| `Reference`, `Kernels`, `Attention`, `MatrixKernels`, `RowKernels` | row functions, the kernels, and the kernels as the two paths call them |
| `Layout`, `Model` | the sixteen parameter tensors and their layer slices |
| `FullPrefix`, `Forward` | the full pass as matrices, its causality, and the method over a reused workspace |
| `KVCache`, `CacheContents`, `Session` | the cache, what it holds, and the session's state machine |
| `Shards`, `LinearExecutor` | the partition of a linear job and one submission as its caller sees it |
| `DividedJob`, `PoolState`, `PoolInvariant`, `PoolSteps`, `PoolData`, `PoolLiveness`, `PoolProtocol`, `PoolFairness` | the worker pool: state and steps, invariant, its preservation, progress, what holds of every finite run and of every fair infinite one |
| `Generation` | both generation loops and the request check |
| `ExactReals`, `ExactKernels`, `Softmax`, `ExactModel` | sums over exact reals, what the kernels and attention compute, and where a layer and the logits read their parameters |

## Model

| member | source | states |
|---|---|---|
| Words.CheckedAdd | src/model.cpp:22-29 | succeeds exactly when the mathematical sum is a `size_t`, and then returns it |
| Words.CheckedMultiply | src/model.cpp:31-38 | the division test is exact: it fails with an overflow exactly when the mathematical product is no `size_t` |
| Layout.CheckedProduct | src/model.cpp:40-47 | the loop succeeds exactly when every prefix of the dimensions has a product that fits, zero factors included |
| Layout.PositiveProduct | src/model.cpp:40-47 | over the positive dimensions of a valid configuration that is exactly when the whole product fits |
| Layout.ParameterLayout.Add | src/model.cpp:82-95 | a tensor is appended right after all earlier ones, or nothing changes; fails exactly when the new total is no `size_t` |
| Layout.ParameterLayout.At | src/model.cpp:124-133 | lookup returns the first tensor of that name, and an error exactly when there is none |
| Layout.BuildLayout | src/model.cpp:76-117 | construction succeeds if and only if the configuration is valid and the exact total of all sixteen sizes fits `size_t`; every tensor then has the name, offset, count and shape that the order of `add` calls gives |
| Layout.ParameterCount | src/model.cpp:97-112 | the total in closed form: (padded + max sequence) C + L (12 C^2 + 13 C) + 2 C |
| Layout.NamedOffsets | src/model.cpp:84-112 | where each of the sixteen named tensors starts, in closed form, which fixes their order |
| Layout.TensorsTile | src/model.cpp:87-94 | every position below the total lies in exactly one tensor: no gap, no overlap |
| Layout.LayersTile | src/model.cpp:53-58 | the slices of all layers, in order, are the whole per-layer tensor |
| Model.Model.TensorAtSpec | src/model.cpp:273-276 | every tensor the inference paths read is the storage at the offset and count of its spec |
| Model.Model.StorageIsTensors | src/model.cpp:87-112 | the sixteen tensors, one after another, are the whole storage |
| Model.Model.TensorView | src/model.cpp:273-278 | lookup by name in the built layout, then the span its spec describes, gives that tensor |
| Model.Model.PartsTile | src/model.cpp:53-58 | the parts that the layers read, one after another, are the whole tensor |
| Model.Model.Slice | src/model.cpp:53-58 | on a loaded model the checked offset never overflows and the slice is that layer's part of the tensor |
| Model.Model.LoadLayer | src/model.cpp:345-358 | all twelve slices of a layer are the layer's parts, and no unchecked width product wraps |
| Model.Model.LayerWidths | src/model.cpp:342-358 | 4C, C*C, 3C*C and 4C*C fit `size_t` for every model that loads |
| Model.Model.SequenceWidths | src/model.cpp:285-291 | the workspace sizes of the longest sequence fit `size_t` for every model that loads |
| Kernels.LayerNorm | src/kernels.cpp:33-69 | fails exactly on a wrong size, changing nothing; otherwise every output row is the layer norm of its input row, in the source's order of operations |
| Kernels.Linear | src/kernels.cpp:71-96 | fails exactly on a wrong size, changing nothing; otherwise every output channel is the bias followed by the products added from the left |
| Kernels.GeluInPlace | src/kernels.cpp:210-216 | every element is replaced by its gelu |
| Kernels.AddInPlace | src/kernels.cpp:218-223 | elementwise sum in place, or a size error that changes nothing |
| Attention.ExponentiateInPlace | src/kernels.cpp:131-137 | the scratch row becomes the exponentials of the scores shifted by their running maximum, and the result is their guarded inverse sum |
| Attention.CausalHead | src/kernels.cpp:116-146 | one head of one position writes its slice of the position's attention and nothing else, whatever the scratch held before |
| Attention.CausalSelfAttention | src/kernels.cpp:98-149 | row r is attention of query r over keys and values 0..r of the interleaved buffer, whatever output and scratch held before |
| Attention.CachedHead | src/kernels.cpp:176-207 | the same for one head over the cache |
| Attention.CachedSelfAttention | src/kernels.cpp:151-208 | attention over the first `visible` cache rows only, whatever the capacity, the rest of the cache and the prior output and scratch |
| Attention.CausalIsCached | src/kernels.cpp:98-208 | row p of the causal kernel is the cached kernel's result at visible length p + 1 on any cache whose first p + 1 rows hold the same keys and values |
| FullPrefix.LayerPrefix | src/model.cpp:344-379 | one layer is causal: its first k output rows are the layer applied to its first k input rows |
| FullPrefix.Causality | src/model.cpp:333-386 | residual and qkv rows after every layer, and logits, at any row r < k are the same for a sequence and for its first k tokens |
| Forward.Workspace.Resize | src/model.cpp:280-302 | succeeds exactly when the configuration and length are in range and all four products fit; buffers then have their sizes, distinct from each other |
| Forward.ValidateTokens | src/model.cpp:320-324 | accepts exactly the sequences whose tokens are all in the real vocabulary |
| Forward.EmbedAll | src/model.cpp:333-340 | residual row p is the token's embedding plus that of position p |
| Forward.LayerStep | src/model.cpp:345-378 | one turn of the layer loop maps the residual rows to those after the layer, over a workspace with any contents |
| Forward.LayerLoop | src/model.cpp:344-379 | the loop ends with the residual rows after all layers |
| Forward.FinalStep | src/model.cpp:381-384 | every row gets the final layer norm |
| Forward.ProjectLogits | src/model.cpp:385-386 | every row is projected on the padded token table |
| Forward.Forward | src/model.cpp:314-392 | succeeds exactly on a non-empty accepted sequence, and the logits are a function of model and tokens alone, whatever earlier calls left in the workspace |
| KVCache.CacheSize | src/session.cpp:41-56 | the chain of checked products fails exactly when a dimension is zero or both buffers' bytes exceed `size_t` |
| KVCache.CreateCache | src/session.cpp:41-56 | construction refuses exactly the dimensions the code refuses, with its errors in its order, and otherwise gives a cache of those dimensions with two fresh buffers |
| KVCache.KVCache.PositionOffset | src/session.cpp:74-87 | succeeds exactly in range, and then the row at the offset lies inside the buffers with no further check |
| KVCache.TableStore | src/session.cpp:96-98 | a row copied at that offset replaces one row of the [layer][position] table and no other |
| KVCache.KVCache.Store | src/session.cpp:89-99 | replaces the key and value row of one layer and position and nothing else, or fails and changes nothing |
| KVCache.KVCache.LayerKeys | src/session.cpp:111-113 | the rows of one whole cache layer |
| KVCache.KVCache.LayerValues | src/session.cpp:115-117 | the same for values |
| CacheContents.StoreLayer | src/session.cpp:246-250 | storing the full pass's key and value of the new token in layer n extends what the cache holds through layer n |
| CacheContents.VisibleRows | src/session.cpp:251-256 | the visible rows of that layer are then exactly the key and value rows the full pass attends over |
| CacheContents.FinishToken | src/session.cpp:162-165 | after all layers the cache holds the longer history |
| Session.InferenceSession.StoreToken | src/session.cpp:246-250 | passes exactly if the qkv submission does not throw; the qkv row then equals the full pass's row, and the cache holds its key and value |
| Session.InferenceSession.AttendToken | src/session.cpp:251-256 | attention over the cache equals the causal row of the full pass |
| Session.InferenceSession.ConsumeLayer | src/session.cpp:230-267 | passes exactly if no submission of the layer throws, and the residual row then equals the full pass's row; otherwise the cache still holds the history |
| Session.InferenceSession.ProjectLogits | src/session.cpp:269-275 | passes exactly if its submission does not throw; the logits are then the real-vocabulary part of the full pass's last row |
| Session.InferenceSession.ConsumeToken | src/session.cpp:201-276 | passes exactly if no submission of the token throws; the cache then holds one more token and the logits are those of a full pass; abandoned, the cache holds what it held |
| Session.InferenceSession.Prefill | src/session.cpp:146-167 | succeeds exactly if it is not refused and no submission throws; it has then consumed the prompt and returns the logits of a full pass over it; refused or abandoned, it publishes nothing |
| Session.PrefillRejectsWhen | src/session.cpp:146-157 | which prompts are refused, with which error, in the source's order |
| Session.InferenceSession.Decode | src/session.cpp:169-183 | the same for one more token |
| Session.DecodeRejectsWhen | src/session.cpp:169-178 | which tokens are refused, with which error, in the source's order |
| Session.FaultlessNeverThrows | src/session.cpp:209-220 | without an executor, or when no shard throws, no token is ever abandoned, so a call succeeds exactly if it is not refused |
| Session.InferenceSession.Reset | src/session.cpp:185-187 | forgets the history over stale cache contents and keeps the invariant |
| Session.CreateSession | src/session.cpp:31-137 | construction succeeds exactly for a capacity in range whose cache bytes fit `size_t`, with an exact error otherwise, and gives a session that satisfies the invariant with an empty history |
| Session.CacheMayOverflow | src/session.cpp:48-53 | a configuration that loads but whose full-length cache does not fit: construction can be refused for size on a valid model |
| Session.RunCalls | src/session.cpp:146-187 | for every run of prefill, decode and reset: each call succeeds exactly if it is not refused and no submission of it throws, and then returns the real-vocabulary logits of a full pass over the tokens consumed since the reset |
| Session.FaultlessRun | src/session.cpp:146-187 | in such a run, a call during which no shard throws succeeds exactly if it is not refused |
| Shards.ShardsConsecutive | src/linear_executor.cpp:55-58 | each shard starts where the one before it ends, from 0 to all output channels |
| Shards.ShardInRange | src/linear_executor.cpp:57-63 | every shard's channel and weight range lies inside the job's, so no offset overflows |
| Shards.ShardsBalanced | src/linear_executor.cpp:55-58 | shards differ by at most one channel, and none is empty on the parallel path |
| Shards.ShardsTile | src/linear_executor.cpp:55-58 | every channel has exactly one owner among the threads |
| Shards.PartIsSlice | src/linear_executor.cpp:62-68 | the scalar kernel on a shard's spans computes that slice of the whole job's result |
| Shards.RunShard | src/linear_executor.cpp:53-69 | writes exactly its slice of the result into the shared output |
| LinearExecutor.RunShards | src/linear_executor.cpp:138-159 | shards run in any order; those given as faulty throw after the given number of channels; it reports a failure exactly if there is one, and what every channel holds afterwards is determined |
| LinearExecutor.Submit | src/linear_executor.cpp:104-160 | passes if and only if the sizes match without overflow and the job is undivided or no shard throws; it then wrote the scalar result; overflow and size errors exactly as checked, writing nothing; after a failed shard every channel is final or untouched, as the faults determine |
| LinearExecutor.DividesWhen | src/linear_executor.cpp:122-123 | a job is divided exactly with two threads or more, a channel for each and the least number of weights for each |
| LinearExecutor.RowLinear | src/session.cpp:209-220 | a linear step of a session passes exactly if its submission does not throw, and then gives the same row with or without an executor |
| DividedJob.WriteKept | src/linear_executor.cpp:66-68 | one channel written by one thread keeps the per-channel account of a submission in progress |
| DividedJob.EndKept | src/linear_executor.cpp:88-92 | so does a thread that finishes its shard or fails anywhere in it |
| DividedJob.AllOver | src/linear_executor.cpp:147-159 | when every thread is through, each channel is final, except those of a failed shard from the one it failed at on, which are untouched |
| DividedJob.SettledWhole | src/linear_executor.cpp:124-125 | without failures the output is the scalar result and each channel was written once, by its owner |
| PoolSteps.ControlKept | src/linear_executor.cpp:71-153 | every step of every thread keeps the control invariant: one holder of the submission lock, `job_` is the holder's job exactly while in flight, `completed_` counts the workers that are through, no wakeup is lost |
| PoolData.InvKept | src/linear_executor.cpp:71-160 | every step of every thread keeps the whole invariant, with memory, writers, errors and the log |
| PoolLiveness.RankStep | src/linear_executor.cpp:71-160 | a productive step lowers a rank and every other step but a new request leaves it exactly as it is: spurious wakeups and tests that find nothing included; with waiting submissions left out, so do the requests of other clients |
| PoolLiveness.RunsEnd | src/linear_executor.cpp:71-160 | the productive steps of a run without new requests are at most its rank, however many wakeups are spurious; the same of a run in which clients go on submitting, until one of them takes the mutex |
| PoolLiveness.SomeoneAble | src/linear_executor.cpp:75-150 | while a submission has `submit_mutex_`, or construction or shutdown is under way, some thread can help |
| PoolLiveness.AbleStays | src/linear_executor.cpp:75-150 | and can do so until it does: no step of any other thread takes that away |
| PoolLiveness.AbleProduces | src/linear_executor.cpp:75-150 | and whatever it does next is productive |
| PoolLiveness.NoDeadlock | src/linear_executor.cpp:75-150 | while a submission, construction or shutdown is unfinished, some productive step that is no failure is enabled |
| PoolLiveness.Drain | src/linear_executor.cpp:40-160 | from every such state there is a run that finishes everything without failures |
| PoolProtocol.SubmissionsSerial | src/linear_executor.cpp:120-160 | in every run, submissions of all clients, the scalar fallback included, take effect one after another; each that returns normally replaced its output by the scalar result, changed nothing else, and had each channel written exactly once by its owner |
| PoolProtocol.FailuresReported | src/linear_executor.cpp:132-159 | a submission throws if and only if a shard of that very job failed, which only a divided job can; the caller's own error wins; the other shards are complete, a failed one has written exactly the channels before the one it failed at, and nothing else changed |
| PoolProtocol.SubmissionEffect | src/linear_executor.cpp:104-160 | every submission of every interleaving has exactly the effect that `LinearExecutor.Submit` has for its single caller with the same faults: whether it throws, and what every channel holds |
| PoolProtocol.BorrowsEnd | src/linear_executor.cpp:129-153 | a worker that runs a job runs the one in flight, never a cleared or replaced one, and none runs once `linear` is returning |
| PoolProtocol.EachRunsOnce | src/linear_executor.cpp:71-92 | each worker copies each published job at most once, once exactly when it has observed its generation, and every worker exactly once by the time a divided submission returns, failed or not, for a counter modulo any M >= 2 |
| PoolProtocol.CompletedCounts | src/linear_executor.cpp:94-99 | while a job is published, `completed_` is the number of workers through with this generation, for a counter modulo any M >= 2 and with workers that start late or still owe a notification |
| PoolProtocol.WakeupsKept | src/linear_executor.cpp:75-150 | a worker asleep with something to see, or a submitter asleep with every worker done, has been or is about to be notified |
| PoolProtocol.StoppingDropsNothing | src/linear_executor.cpp:40-51 | stopping begins with nothing published, after full or partial construction, and ends with every worker exited |
| PoolProtocol.EverythingFinishes | src/linear_executor.cpp:40-160 | from every reachable state, the productive steps of a run are bounded by its rank whatever wakeups are spurious, a run is stuck only when every submission has returned and any shutdown is complete, and some run gets there without a failure |
| PoolFairness.HolderReturns | src/linear_executor.cpp:121-160 | on every infinite run that is weakly fair to the threads, every submission that has taken `submit_mutex_` returns, whatever other clients go on asking, however many wakeups are spurious and whichever shards fail |
| PoolFairness.EverySubmissionReturns | src/linear_executor.cpp:104-160 | if the mutex is fair as well, every submission returns, those that wait for it included |
| PoolFairness.ShutdownEnds | src/linear_executor.cpp:40-51 | on every such run a shutdown, after full or partial construction, ends with all joins done and every worker exited |
| PoolFairness.FairRunExists | src/linear_executor.cpp:71-160 | every state that satisfies the invariant has such a run |
| Generation.GreedyToken | app/gpt2_generate.cpp:152-155 | the index `max_element` selects, which fits the `int32` cast |
| Generation.GreedyIsFirstGreatest | app/gpt2_generate.cpp:152-155 | when the comparison is a strict weak order (no NaN), the greedy token is the first of the greatest logits |
| Generation.LastRow | app/gpt2_generate.cpp:169-171 | the last padded row of `forward`'s logits, cut to the real vocabulary, is what a session returns for the same tokens |
| Generation.GenerateFull | app/gpt2_generate.cpp:163-186 | succeeds exactly on a valid prompt; the prompt followed by greedy tokens, and the last padded row as dump |
| Generation.DecodeLoop | app/gpt2_generate.cpp:206-215 | the cached loop appends the same tokens and consumes all but the last; it fails exactly if the submission of a token it consumes throws |
| Generation.GenerateCached | app/gpt2_generate.cpp:188-227 | the capacity count is exact: the session ends with `required` tokens and no decode is refused; it succeeds exactly on a valid prompt, a capacity that suffices and no throwing shard, and each failure has its error |
| Generation.FaultlessRequest | app/gpt2_generate.cpp:188-227 | without a throwing shard no request is abandoned |
| Generation.GenerateBoth | app/gpt2_generate.cpp:163-227 | for every request and every executor, both modes that finish give the same tokens and dumps equal on the real vocabulary; when no shard throws, cached mode finishes where full mode does exactly if the capacity suffices |
| Generation.Generate | app/gpt2_generate.cpp:231-246 | a request too long for the context is refused without overflow; full mode succeeds exactly on a valid prompt and dumps the padded last row; cached mode, with the context length as default capacity, exactly on a valid prompt, a sufficient capacity and no throwing shard, and dumps the unpadded row; each failure has its error |
| Softmax.DenominatorPositive | src/kernels.cpp:131-137 | over exact reals the denominator is positive, so the zero guard never fires, and at least 1 if some score is not below `lowest` |
| Softmax.WeightsSumToOne | src/kernels.cpp:137-142 | the weights of a head are non-negative and sum to 1 |
| Softmax.OutputBetween | src/kernels.cpp:176-207 | each output channel lies between the least and the greatest visible value |
| Softmax.ShiftIrrelevant | src/kernels.cpp:131-142 | if exp(x + y) = exp(x) exp(y), the shift by the maximum changes no weight |
| Softmax.ScoresAre | src/kernels.cpp:121-127 | a score is the sum of the products of the head's query and key channels over the square root of the head size |
| Softmax.OutputIsSoftmax | src/kernels.cpp:176-207 | if exp(x + y) = exp(x) exp(y), attention is the plain softmax of the query-key products over the root of the head size, applied to the value rows |
| Softmax.CausalIsSoftmax | src/kernels.cpp:98-149 | the same for row r of the causal kernel, in the channels of the interleaved buffer: queries first, keys second, values last, and rows 0 to r visible |
| ExactKernels.LinearIsDot | src/kernels.cpp:85-94 | over exact reals an output channel is the bias, or zero, plus the sum of input times weight over that channel's weight row |
| ExactKernels.LinearOfZero | src/kernels.cpp:85-94 | the output for a zero input is the bias, or zero without one |
| ExactKernels.LinearAdds | src/kernels.cpp:85-94 | adding t to input j adds t times weight[c][j] to output channel c |
| ExactKernels.LayerNormIs | src/kernels.cpp:47-68 | layer norm is the deviation from the mean over the root of variance plus epsilon, times the weight, plus the bias |
| ExactKernels.NormHasZeroMean | src/kernels.cpp:47-68 | before weight and bias the elements sum to zero |
| ExactKernels.NormHasUnitVariance | src/kernels.cpp:47-68 | and their squares sum to n v / (v + epsilon), with v the variance of the input |
| ExactKernels.GeluIs | src/kernels.cpp:210-216 | gelu is half v (1 + tanh(sqrt(2 / pi) (v + k v^3))) |
| ExactKernels.GeluOdd | src/kernels.cpp:210-216 | with an odd tanh, gelu(v) - gelu(-v) = v |
| ExactModel.LayerOfIsAt | src/model.cpp:345-358 | each of the twelve parts that a layer reads is the storage at a position given in closed form |
| ExactModel.EmbedAt | src/model.cpp:333-340 | channel c of an embedding adds the storage at token C + c and at padded C + position C + c |
| ExactModel.QkvIs | src/model.cpp:360-363 | qkv is the first norm of the row times the qkv weight plus the qkv bias; no parameter of the other half is read |
| ExactModel.ResidualIs | src/model.cpp:360-378 | over exact reals a layer adds the projected attention to the residual row, and to the result the projected gelu of fc of its second norm |
| ExactModel.LogitsIs | src/model.cpp:381-386 | the logit of v is the product of the last norm, with the last two rows of the storage as weight and bias, and row v of the token table |
| ExactModel.LayerIdentity | src/model.cpp:360-378 | a layer whose two projections are zero is the identity on the residual rows, whatever its other parameters |

## Reading the worker pool

`PoolState.State` is the executor's shared state with the program counters of all threads. A block under
`state_mutex_` is one step, since nothing else can be seen in between; a shard writes one channel per step; waiting
is a sleeper that leaves on a notification or spuriously and then tests its predicate again. `notify_one` must pick
a sleeper that has not been notified, and is lost if there is none. Submitting clients are unbounded in number and
each may submit any number of jobs of any shapes to any of the buffers in `memory`. `committed`, `writers`,
`failures`, `copies` and `log` record what happened and guide no step. The scalar fallback is the same account with
a crew of one thread.

`PoolFairness` is about infinite runs, at each moment of which one thread takes a step or nothing happens. Weak
fairness says that a thread which could move from some moment on moves; it asks for no new request and no spurious
wakeup. That is enough for the client that has `submit_mutex_` and for shutdown. A standard mutex promises a waiting
client nothing, so `EverySubmissionReturns` says what it needs: a client that could take the mutex again and again
does. The invariant that a fair run starts from holds of the initial state by `PoolInvariant.InitialOk` and of
every reachable one by `PoolProtocol.ReachedOk`.

`LinearExecutor.Submit` is one submission as the single caller of a session sees it: the shards in some order, some
of them failing. Which shards fail, and after how many channels, is an input: `Faults` of one submission, and for an
executor a function from `Site`, the position, layer and linear layer of a submission, to its faults. Success is
then an equivalence at every level up to `Generation.Generate`. The contract of `Submit` is `LinearExecutor.Effect`,
and `PoolProtocol.SubmissionEffect` proves that every submission in every interleaving has that effect with the
failures that happened in it, which is what justifies taking it as one operation.

## Left out

- Reading a checkpoint: stream limits, endianness and the header's format. `Model.Valid` is what loading establishes: positive dimensions up to 2^31 - 1, a layout whose payload bytes fit `size_t`, and storage of that length.
- Float rounding, IEEE 754 semantics and numeric error bounds: operations are uninterpreted, or exact reals in the `Exact` modules and `Softmax`; the four constants of gelu and layer norm are parameters.
- The C++ memory model and the inside of mutexes and condition variables.
- The 65,536-floats-per-thread threshold (src/linear_executor.cpp:12) is a parameter; no claim depends on its value.
- A real shard cannot fail on sizes once `linear` has validated them; failures are steps that may happen at any time.
- Read-only spans are sequences, and the logits a session returns are a copy: that the next call overwrites the caller's view is not captured.
- Preconditions, as the design documents ask of callers: outputs do not alias inputs, one session is not used concurrently, the executor outlives its submissions, and the executor has at least one thread.
- Tensor names are an enumeration, so a name that no layout has cannot be asked for; `std::bad_alloc` and allocator limits cannot occur either.
- Command-line parsing, printing, binary dumps to files, benchmarks, the inspection tool and the comparison scripts.
