/** InferenceSession: one token at a time over a key/value cache. */
module Session {
  import opened Wrappers
  import opened Words
  import opened Arithmetic
  import opened Matrices
  import opened Reference
  import opened RowKernels
  import opened Kernels
  import opened Layout
  import opened Model
  import opened FullPrefix
  import opened LinearExecutor
  import opened CacheContents
  import Forward
  import Caches = KVCache

  /** Why prefill refuses a prompt before it touches any state, or Pass. */
  function PrefillRejects(config: Config, capacity: nat, size: nat, prompt: seq<int>): Outcome {
    if size != 0 then Fail(LogicFailure)
    else if |prompt| == 0 then Fail(InvalidArgument)
    else if |prompt| > capacity then Fail(LengthExceeded)
    else if !ValidTokens(config, prompt) then Fail(InvalidArgument)
    else Pass
  }

  /** Why decode refuses a token before it touches any state, or Pass. */
  function DecodeRejects(config: Config, capacity: nat, size: nat, token: int): Outcome {
    if size == 0 then Fail(LogicFailure)
    else if token < 0 || token >= config.vocabulary then Fail(InvalidArgument)
    else if size == capacity then Fail(LengthExceeded)
    else Pass
  }

  /** Which call is refused, and why, written out in the order in which the code looks. */
  lemma PrefillRejectsWhen(config: Config, capacity: nat, size: nat, prompt: seq<int>)
    ensures var rejected := PrefillRejects(config, capacity, size, prompt);
            && (rejected == Fail(LogicFailure) <==> size > 0)
            && (rejected == Fail(LengthExceeded) <==> size == 0 && |prompt| > 0 && |prompt| > capacity)
            && (rejected == Fail(InvalidArgument) <==>
                  && size == 0
                  && (|prompt| == 0 || (|prompt| <= capacity
                                        && exists t :: t in prompt && !(0 <= t < config.vocabulary))))
            && (rejected.Pass? <==> && size == 0 && 0 < |prompt| <= capacity
                                    && forall i :: 0 <= i < |prompt| ==> 0 <= prompt[i] < config.vocabulary)
  {
    if !ValidTokens(config, prompt) {
      var i :| 0 <= i < |prompt| && !(0 <= prompt[i] < config.vocabulary);
      assert prompt[i] in prompt;
    }
  }

  lemma DecodeRejectsWhen(config: Config, capacity: nat, size: nat, token: int)
    requires size <= capacity
    ensures var rejected := DecodeRejects(config, capacity, size, token);
            && (rejected == Fail(LogicFailure) <==> size == 0)
            && (rejected == Fail(InvalidArgument) <==> size > 0 && !(0 <= token < config.vocabulary))
            && (rejected == Fail(LengthExceeded) <==> size == capacity > 0 && 0 <= token < config.vocabulary)
            && (rejected.Pass? <==> 0 < size < capacity && 0 <= token < config.vocabulary)
  {
  }

  /** Some linear layer of one transformer layer of consume_token throws. */
  ghost predicate LayerThrows(config: Config, executor: Executor, position: nat, layer: nat) {
    var c := config.channels;
    || executor.Throws(Site(position, layer, InQkv), c, 3 * c)
    || executor.Throws(Site(position, layer, InProjection), c, c)
    || executor.Throws(Site(position, layer, InHidden), c, 4 * c)
    || executor.Throws(Site(position, layer, InOutput), 4 * c, c)
  }

  lemma LayerThrowsWhen(config: Config, executor: Executor, position: nat, layer: nat)
    ensures var c := config.channels;
            LayerThrows(config, executor, position, layer) <==>
              || executor.Throws(Site(position, layer, InQkv), c, 3 * c)
              || executor.Throws(Site(position, layer, InProjection), c, c)
              || executor.Throws(Site(position, layer, InHidden), c, 4 * c)
              || executor.Throws(Site(position, layer, InOutput), 4 * c, c)
  {
  }

  /** Some submission of consume_token at this position throws. */
  ghost predicate TokenThrows(config: Config, executor: Executor, position: nat) {
    || (exists layer :: 0 <= layer < config.layers && LayerThrows(config, executor, position, layer))
    || executor.Throws(Site(position, config.layers, InLogits), config.channels, config.vocabulary)
  }

  lemma TokenThrowsWhen(config: Config, executor: Executor, position: nat)
    ensures TokenThrows(config, executor, position) <==>
              || (exists layer :: 0 <= layer < config.layers && LayerThrows(config, executor, position, layer))
              || executor.Throws(Site(position, config.layers, InLogits), config.channels, config.vocabulary)
  {
  }

  /** Without a throwing shard, and without an executor, no token is ever abandoned. */
  lemma FaultlessNeverThrows(config: Config, executor: Executor, position: nat)
    requires executor.Faultless()
    ensures !TokenThrows(config, executor, position)
  {
  }

  class InferenceSession<F> {
    const model: Model<F>
    const cache: Caches.KVCache<F>
    const residual: array<F>
    const normalized: array<F>
    const qkv: array<F>
    const attentionOutput: array<F>
    const projected: array<F>
    const mlpHidden: array<F>
    const attentionScores: array<F>
    const logits: array<F>
    var size: nat

    /** The tokens consumed since construction or the last reset. */
    ghost var history: seq<int>

    /** What construction establishes once and for all. */
    ghost predicate Built() {
      && model.Valid() && cache.Valid()
      && cache.layers == model.config.layers && cache.channels == model.config.channels
      && cache.capacity <= model.config.maxSequence
      && residual.Length == normalized.Length == attentionOutput.Length == projected.Length == model.config.channels
      && qkv.Length == 3 * model.config.channels
      && mlpHidden.Length == 4 * model.config.channels
      && attentionScores.Length == cache.capacity
      && logits.Length == model.config.vocabulary
      && Separate()
    }

    /** The buffers are ten different allocations. */
    ghost predicate Separate() {
      && residual !in {normalized, qkv, attentionOutput, projected, mlpHidden, attentionScores, logits, cache.keys,
                       cache.values}
      && normalized !in {qkv, attentionOutput, projected, mlpHidden, attentionScores, logits, cache.keys, cache.values}
      && qkv !in {attentionOutput, projected, mlpHidden, attentionScores, logits, cache.keys, cache.values}
      && attentionOutput !in {projected, mlpHidden, attentionScores, logits, cache.keys, cache.values}
      && projected !in {mlpHidden, attentionScores, logits, cache.keys, cache.values}
      && mlpHidden !in {attentionScores, logits, cache.keys, cache.values}
      && attentionScores !in {logits, cache.keys, cache.values}
      && logits !in {cache.keys, cache.values}
    }

    ghost predicate Valid()
      reads this, cache.keys, cache.values
    {
      && Built() && size == |history| <= cache.capacity
      && Holds(model, cache.Keys(), cache.Values(), cache.capacity, history)
    }

    constructor (model: Model<F>, capacity: Word)
      requires model.Valid() && 0 < capacity <= model.config.maxSequence
      requires Caches.CacheSize(model.config.layers, capacity, model.config.channels).Success?
      ensures Valid() && size == 0 && history == []
      ensures this.model == model && cache.capacity == capacity
      ensures fresh({residual, normalized, qkv, attentionOutput, projected, mlpHidden, attentionScores, logits,
                     cache.keys, cache.values})
    {
      var zero := model.ops.zero;
      var c := model.config.channels;
      model.LayerWidths();
      var c3: Word := 3 * c;
      var c4: Word := 4 * c;
      this.model := model;
      cache := new Caches.KVCache(model.config.layers, capacity, c, zero);
      residual := new F[c](_ => zero);
      normalized := new F[c](_ => zero);
      qkv := new F[c3](_ => zero);
      attentionOutput := new F[c](_ => zero);
      projected := new F[c](_ => zero);
      mlpHidden := new F[c4](_ => zero);
      attentionScores := new F[capacity](_ => zero);
      logits := new F[model.config.vocabulary](_ => zero);
      size := 0;
      history := [];
    }

    /** What the steps of a layer need to know about the buffers and the spec rows. */
    lemma LayerFacts(tokens: seq<int>, layer: nat, position: nat, through: nat)
      requires Built() && layer < model.config.layers && position == |tokens| - 1
      requires HoldsThrough(model, cache.Keys(), cache.Values(), cache.capacity, tokens, through)
      ensures model.Valid() && cache.Valid() && model.LayerOf(layer).Fits(model.config.channels)
      ensures 0 <= position < cache.capacity && Accepted(model, tokens)
      ensures model.config.channels > 0 && 4 * model.config.channels <= SIZE_MAX
      ensures model.config.channels * model.config.channels <= SIZE_MAX
      ensures 3 * model.config.channels * model.config.channels <= SIZE_MAX
      ensures 4 * model.config.channels * model.config.channels
           == model.config.channels * (4 * model.config.channels) <= SIZE_MAX
      ensures cache.capacity * model.config.channels <= SIZE_MAX
      ensures ValidHeads(model.config.channels, model.config.heads)
      ensures cache.layers == model.config.layers && cache.channels == model.config.channels
      ensures residual.Length == normalized.Length == attentionOutput.Length == projected.Length
           == model.config.channels
      ensures qkv.Length == 3 * model.config.channels && mlpHidden.Length == 4 * model.config.channels
      ensures attentionScores.Length == cache.capacity
      ensures IsMatrix(QkvOf(model, tokens, layer), |QkvOf(model, tokens, layer)|, 3 * model.config.channels)
      ensures |Residual(model, tokens, layer)| == |QkvOf(model, tokens, layer)| == |tokens|
      ensures |QkvOf(model, tokens, layer)[position]| == 3 * model.config.channels
      ensures cache.keys != cache.values
      ensures residual !in {normalized, qkv, attentionOutput, projected, mlpHidden, attentionScores, cache.keys,
                            cache.values}
      ensures projected !in {cache.keys, cache.values} && mlpHidden !in {cache.keys, cache.values}
      ensures attentionOutput !in {cache.keys, cache.values} && attentionScores !in {cache.keys, cache.values}
      ensures normalized !in {cache.keys, cache.values}
      ensures qkv !in {cache.keys, cache.values, attentionOutput, attentionScores}
      ensures attentionOutput !in {projected, attentionScores} && normalized != qkv
    {
      model.LayerWidths();
      Caches.LayerInTotal(cache.layers, cache.capacity * cache.channels);
    }

    /** The first part of a layer of consume_token: qkv of the new token, and its store. */
    method StoreToken(w: LayerWeights<F>, layer: Word, position: Word, executor: Executor, ghost tokens: seq<int>)
      returns (r: Outcome)
      requires Built() && executor.Valid() && layer < model.config.layers && position == |tokens| - 1
      requires HoldsThrough(model, cache.Keys(), cache.Values(), cache.capacity, tokens, layer)
      requires w == model.LayerOf(layer)
      requires residual[..] == Residual(model, tokens, layer)[position]
      modifies normalized, qkv, cache.keys, cache.values
      ensures r.Pass? ==> && HoldsThrough(model, cache.Keys(), cache.Values(), cache.capacity, tokens, layer + 1)
                          && qkv[..] == QkvOf(model, tokens, layer)[position]
      ensures r.Pass? <==>
                !executor.Throws(Site(position, layer, InQkv), model.config.channels, 3 * model.config.channels)
      ensures r.Fail? ==> && r.error == ShardFailure
                          && HoldsThrough(model, cache.Keys(), cache.Values(), cache.capacity, tokens, layer)
    {
      hide *;
      LayerFacts(tokens, layer, position, layer);
      var c := model.config.channels;
      ghost var y := QkvOf(model, tokens, layer)[position];
      LastRowNext(model, tokens, layer);
      QkvParts(y, c);
      r := QkvStep(model.ops, executor, Site(position, layer, InQkv), normalized, qkv, residual[..], w, c);
      if r.Fail? {
        return;
      }
      StoreLayer(model, cache.Keys(), cache.Values(), cache.capacity, tokens, layer, y[c..2 * c], y[2 * c..]);
      assert qkv[c..2 * c] == qkv[..][c..2 * c] && qkv[2 * c..3 * c] == qkv[..][2 * c..3 * c];
      var stored := cache.Store(layer, position, qkv[c..2 * c], qkv[2 * c..3 * c]);
      assert stored.Pass?;
    }

    /** The second part: the attention of the new token over the visible cache rows. */
    method AttendToken(layer: Word, position: Word, ghost tokens: seq<int>)
      requires Built() && layer < model.config.layers && position == |tokens| - 1
      requires HoldsThrough(model, cache.Keys(), cache.Values(), cache.capacity, tokens, layer + 1)
      requires qkv[..] == QkvOf(model, tokens, layer)[position]
      modifies attentionOutput, attentionScores
      ensures attentionOutput[..] == CausalRow(model.ops, QkvOf(model, tokens, layer), position,
                                               model.config.channels, model.config.heads)
    {
      hide *;
      LayerFacts(tokens, layer, position, layer + 1);
      var c := model.config.channels;
      ghost var y := QkvOf(model, tokens, layer);
      VisibleRows(model, cache.Keys(), cache.Values(), cache.capacity, tokens, layer);
      CausalRowIs(model.ops, y, position, c, model.config.heads);
      var keys := cache.LayerKeys(layer);
      var values := cache.LayerValues(layer);
      assert qkv[..c] == qkv[..][..c];
      AttendRow(model.ops, attentionOutput, qkv[..c], keys.value, values.value, attentionScores,
                position + 1, cache.capacity, c, model.config.heads,
                KeyRows(y, position + 1, c), ValueRows(y, position + 1, c));
    }

    /** One layer of consume_token for the last token of a working sequence. */
    method ConsumeLayer(layer: Word, position: Word, executor: Executor, ghost tokens: seq<int>)
      returns (r: Outcome)
      requires Built() && executor.Valid() && layer < model.config.layers && position == |tokens| - 1
      requires HoldsThrough(model, cache.Keys(), cache.Values(), cache.capacity, tokens, layer)
      requires residual[..] == Residual(model, tokens, layer)[position]
      modifies normalized, qkv, attentionOutput, attentionScores, projected, mlpHidden, residual
      modifies cache.keys, cache.values
      ensures r.Pass? ==> HoldsThrough(model, cache.Keys(), cache.Values(), cache.capacity, tokens, layer + 1)
                          && residual[..] == Residual(model, tokens, layer + 1)[position]
      ensures r.Pass? <==> !LayerThrows(model.config, executor, position, layer)
      ensures r.Fail? ==> r.error == ShardFailure
      ensures r.Fail? ==> || HoldsThrough(model, cache.Keys(), cache.Values(), cache.capacity, tokens, layer)
                          || HoldsThrough(model, cache.Keys(), cache.Values(), cache.capacity, tokens, layer + 1)
    {
      hide *;
      LayerFacts(tokens, layer, position, layer);
      var c := model.config.channels;
      ghost var x := Residual(model, tokens, layer)[position];
      NextResidual(model, tokens, layer);
      LayerThrowsWhen(model.config, executor, position, layer);
      var w := model.LoadLayer(layer);
      r := StoreToken(w, layer, position, executor, tokens);
      if r.Fail? {
        return;
      }
      AttendToken(layer, position, tokens);
      assert residual[..] == x;
      r := ProjectStep(model.ops, executor, Site(position, layer, InProjection), projected, residual,
                       attentionOutput[..], w, c);
      if r.Fail? {
        return;
      }
      r := MlpStep(model.ops, executor, Site(position, layer, InHidden), Site(position, layer, InOutput),
                   normalized, mlpHidden, projected, residual, w, c);
    }

    /** The final layer norm and the projection of the last row onto the real vocabulary. */
    method ProjectLogits(position: Word, executor: Executor, ghost tokens: seq<int>) returns (r: Outcome)
      requires Built() && executor.Valid() && Accepted(model, tokens) && position == |tokens| - 1
      requires residual[..] == Residual(model, tokens, model.config.layers)[|tokens| - 1]
      modifies normalized, logits
      ensures r.Pass? ==> logits[..] == NextLogits(model, tokens)
      ensures r.Pass? <==> !executor.Throws(Site(position, model.config.layers, InLogits),
                                            model.config.channels, model.config.vocabulary)
      ensures r.Fail? ==> r.error == ShardFailure
    {
      NextLogitsRow(model, tokens);
      hide Residual, NextLogits, QkvOf, Accepted;
      r := LogitsStep(model, executor, Site(position, model.config.layers, InLogits), normalized, logits,
                      residual[..]);
    }

    lemma TokenFacts(prior: seq<int>, token: int)
      requires Built() && Holds(model, cache.Keys(), cache.Values(), cache.capacity, prior)
      requires |prior| < cache.capacity && 0 <= token < model.config.vocabulary
      ensures model.Valid() && cache.Valid() && Accepted(model, prior + [token])
      ensures |prior| < model.config.maxSequence && residual.Length == model.config.channels
      ensures |Residual(model, prior + [token], 0)| == |prior| + 1
      ensures Residual(model, prior + [token], 0)[|prior|] == EmbedRow(model, token, |prior|)
      ensures forall n | 0 <= n <= model.config.layers :: |Residual(model, prior + [token], n)| == |prior| + 1
      ensures residual !in {cache.keys, cache.values} && normalized !in {cache.keys, cache.values}
      ensures logits !in {cache.keys, cache.values} && residual !in {normalized, logits}
    {
      AcceptNext(model, prior, token);
      EmbedLast(model, prior, token);
    }

    /**
     consume_token at an unpublished position. On success the cache holds one more token and the logits
     are the next-token logits of a full pass over all of them. However it is abandoned, the cache
     still holds what was consumed before.
     */
    method ConsumeToken(token: int, position: Word, executor: Executor, ghost prior: seq<int>) returns (r: Outcome)
      requires Built() && executor.Valid() && Holds(model, cache.Keys(), cache.Values(), cache.capacity, prior)
      requires position == |prior| < cache.capacity && 0 <= token < model.config.vocabulary
      modifies residual, normalized, qkv, attentionOutput, attentionScores, projected, mlpHidden, logits
      modifies cache.keys, cache.values
      ensures r.Pass? ==> && Holds(model, cache.Keys(), cache.Values(), cache.capacity, prior + [token])
                          && Accepted(model, prior + [token])
                          && logits[..] == NextLogits(model, prior + [token])
      ensures r.Pass? <==> !TokenThrows(model.config, executor, position)
      ensures r.Fail? ==> && r.error == ShardFailure
                          && Holds(model, cache.Keys(), cache.Values(), cache.capacity, prior)
    {
      hide *;
      ghost var tokens := prior + [token];
      TokenFacts(prior, token);
      StartToken(model, cache.Keys(), cache.Values(), cache.capacity, prior, token);
      TokenThrowsWhen(model.config, executor, position);
      EmbedInto(model, residual, token, position);
      for layer := 0 to model.config.layers
        invariant HoldsThrough(model, cache.Keys(), cache.Values(), cache.capacity, tokens, layer)
        invariant residual[..] == Residual(model, tokens, layer)[position]
        invariant forall l :: 0 <= l < layer ==> !LayerThrows(model.config, executor, position, l)
      {
        r := ConsumeLayer(layer, position, executor, tokens);
        if r.Fail? {
          if HoldsThrough(model, cache.Keys(), cache.Values(), cache.capacity, tokens, layer) {
            AbandonToken(model, cache.Keys(), cache.Values(), cache.capacity, prior, token, layer);
          } else {
            AbandonToken(model, cache.Keys(), cache.Values(), cache.capacity, prior, token, layer + 1);
          }
          return;
        }
      }
      r := ProjectLogits(position, executor, tokens);
      if r.Fail? {
        AbandonToken(model, cache.Keys(), cache.Values(), cache.capacity, prior, token, model.config.layers);
        return;
      }
      FinishToken(model, cache.Keys(), cache.Values(), cache.capacity, tokens);
    }

    lemma SizeIsHistory()
      requires Valid()
      ensures size == |history|
    {
    }

    ghost function Buffers(): set<array<F>> {
      {residual, normalized, qkv, attentionOutput, projected, mlpHidden, attentionScores, logits, cache.keys,
       cache.values}
    }

    /** Consumes a whole prompt. A rejected or abandoned prefill publishes nothing. */
    method Prefill(prompt: seq<int>, executor: Executor) returns (r: Result<seq<F>>)
      requires Valid() && executor.Valid()
      modifies this
      modifies residual, normalized, qkv, attentionOutput, attentionScores, projected, mlpHidden, logits
      modifies cache.keys, cache.values
      ensures Valid()
      ensures PrefillRejects(model.config, cache.capacity, old(size), prompt).Fail? ==>
                r == Failure(PrefillRejects(model.config, cache.capacity, old(size), prompt).error)
      ensures PrefillRejects(model.config, cache.capacity, old(size), prompt).Pass? ==>
                if exists position :: 0 <= position < |prompt| && TokenThrows(model.config, executor, position)
                then r == Failure(ShardFailure) else r.Success?
      ensures r.Failure? ==> size == old(size) && history == old(history)
      ensures r.Success? ==> history == prompt && Accepted(model, prompt) && prompt != []
                             && r.value == NextLogits(model, prompt)
    {
      hide Holds, Accepted, NextLogits, ValidTokens, TokenThrows;
      if size != 0 {
        return Failure(LogicFailure);
      }
      if |prompt| == 0 {
        return Failure(InvalidArgument);
      }
      if |prompt| > cache.capacity {
        return Failure(LengthExceeded);
      }
      var valid := Forward.ValidateTokens(model.config, prompt);
      if !valid {
        return Failure(InvalidArgument);
      }
      var consumed := ConsumePrompt(prompt, executor);
      if consumed.Fail? {
        assert history == [];
        return Failure(consumed.error);
      }
      size := |prompt|;
      history := prompt;
      return Success(logits[..]);
    }

    /** The loop of prefill: an unpublished working position over the whole prompt. */
    method ConsumePrompt(prompt: seq<int>, executor: Executor) returns (r: Outcome)
      requires Built() && executor.Valid()
      requires Holds(model, cache.Keys(), cache.Values(), cache.capacity, [])
      requires 0 < |prompt| <= cache.capacity && ValidTokens(model.config, prompt)
      modifies residual, normalized, qkv, attentionOutput, attentionScores, projected, mlpHidden, logits
      modifies cache.keys, cache.values
      ensures r.Pass? ==> Holds(model, cache.Keys(), cache.Values(), cache.capacity, prompt)
                          && Accepted(model, prompt) && logits[..] == NextLogits(model, prompt)
      ensures r.Pass? <==>
                forall position :: 0 <= position < |prompt| ==> !TokenThrows(model.config, executor, position)
      ensures r.Fail? ==> r.error == ShardFailure
                          && Holds(model, cache.Keys(), cache.Values(), cache.capacity, [])
    {
      hide *;
      PromptStart(prompt);
      for position := 0 to |prompt|
        invariant Holds(model, cache.Keys(), cache.Values(), cache.capacity, prompt[..position])
        invariant position == 0 || LogitsFor(prompt[..position])
        invariant forall p :: 0 <= p < position ==> !TokenThrows(model.config, executor, p)
      {
        PromptFacts(prompt, position);
        r := ConsumeToken(prompt[position], position, executor, prompt[..position]);
        if r.Fail? {
          Forget(prompt[..position]);
          return;
        }
        LogitsNow(prompt[..position] + [prompt[position]]);
      }
      PromptEnd(prompt);
      return Pass;
    }

    ghost predicate LogitsFor(tokens: seq<int>)
      reads logits
    {
      tokens != [] && Accepted(model, tokens) && logits[..] == NextLogits(model, tokens)
    }

    lemma LogitsNow(tokens: seq<int>)
      requires tokens != [] && Accepted(model, tokens) && logits[..] == NextLogits(model, tokens)
      ensures LogitsFor(tokens)
    {
    }

    lemma PromptStart(prompt: seq<int>)
      requires Built() && |prompt| <= cache.capacity
      ensures prompt[..0] == [] && |prompt| <= SIZE_MAX && cache.Valid()
    {
    }

    lemma PromptEnd(prompt: seq<int>)
      requires |prompt| > 0 && LogitsFor(prompt[..|prompt|])
      ensures prompt[..|prompt|] == prompt
      ensures Accepted(model, prompt) && logits[..] == NextLogits(model, prompt)
    {
      assert prompt[..|prompt|] == prompt;
    }

    lemma PromptFacts(prompt: seq<int>, position: nat)
      requires Built() && position < |prompt| <= cache.capacity && ValidTokens(model.config, prompt)
      ensures 0 <= prompt[position] < model.config.vocabulary && position <= SIZE_MAX
      ensures prompt[..position] + [prompt[position]] == prompt[..position + 1]
    {
    }

    lemma Forget(prior: seq<int>)
      requires Built() && Holds(model, cache.Keys(), cache.Values(), cache.capacity, prior)
      ensures Holds(model, cache.Keys(), cache.Values(), cache.capacity, [])
    {
      ForgetAll(model, cache.Keys(), cache.Values(), cache.capacity);
    }

    /** Consumes one more token. A rejected or abandoned decode publishes nothing. */
    method Decode(token: int, executor: Executor) returns (r: Result<seq<F>>)
      requires Valid() && executor.Valid()
      modifies this
      modifies residual, normalized, qkv, attentionOutput, attentionScores, projected, mlpHidden, logits
      modifies cache.keys, cache.values
      ensures Valid()
      ensures DecodeRejects(model.config, cache.capacity, old(size), token).Fail? ==>
                r == Failure(DecodeRejects(model.config, cache.capacity, old(size), token).error)
      ensures DecodeRejects(model.config, cache.capacity, old(size), token).Pass? ==>
                if TokenThrows(model.config, executor, old(size)) then r == Failure(ShardFailure) else r.Success?
      ensures r.Failure? ==> size == old(size) && history == old(history)
      ensures r.Success? ==> history == old(history) + [token] && Accepted(model, history)
                             && r.value == NextLogits(model, history)
    {
      hide Holds, Accepted, NextLogits, TokenThrows;
      if size == 0 {
        return Failure(LogicFailure);
      }
      if token < 0 || token >= model.config.vocabulary {
        return Failure(InvalidArgument);
      }
      if size == cache.capacity {
        return Failure(LengthExceeded);
      }
      var position := size;
      var consumed := ConsumeToken(token, position, executor, history);
      if consumed.Fail? {
        return Failure(consumed.error);
      }
      size := position + 1;
      history := history + [token];
      return Success(logits[..]);
    }

    /** Forgets the history; the cache keeps its contents. */
    method Reset()
      requires Valid()
      modifies this
      ensures Valid() && size == 0 && history == []
    {
      Forget(history);
      size := 0;
      history := [];
    }
  }

  /** Session construction, which fails on a bad capacity or on a cache too large for size_t. */
  method CreateSession<F>(model: Model<F>, capacity: Word) returns (r: Result<InferenceSession<F>>)
    requires model.Valid()
    ensures r.Success? <==> 0 < capacity <= model.config.maxSequence
                            && 8 * (model.config.layers * (capacity * model.config.channels)) <= SIZE_MAX
    ensures r.Failure? ==>
              r.error == if capacity == 0 || capacity > model.config.maxSequence then InvalidArgument else Overflow
    ensures r.Success? ==> fresh(r.value) && fresh(r.value.Buffers()) && r.value.Valid()
                           && r.value.model == model && r.value.cache.capacity == capacity && r.value.history == []
  {
    if capacity == 0 || capacity > model.config.maxSequence {
      return Failure(InvalidArgument);
    }
    var size := Caches.CacheSize(model.config.layers, capacity, model.config.channels);
    if size.Failure? {
      return Failure(size.error);
    }
    var session := new InferenceSession(model, capacity);
    return Success(session);
  }

  /** A model that loads need not have a session of its full context length: the cache size can overflow. */
  lemma CacheMayOverflow() returns (config: Config)
    ensures config.Valid() && config.maxSequence <= INT32_MAX && config.padded <= INT32_MAX
    ensures config.layers <= INT32_MAX && config.channels <= INT32_MAX && 4 * TotalCount(config) <= SIZE_MAX
    ensures Caches.CacheSize(config.layers, config.maxSequence, config.channels) == Failure(Overflow)
  {
    hide OffsetTo;
    config := Config(INT32_MAX, 1, 1, INT32_MAX, 1, 1);
    ParameterCount(config);
  }

  /** A call a client can make. */
  datatype Call = Prefill(prompt: seq<int>, executor: Executor) | Decode(token: int, executor: Executor) | Reset

  /** The tokens consumed since the last reset, after one more call. */
  function AfterCall(consumed: seq<int>, call: Call, succeeded: bool): seq<int> {
    match call
    case Reset => []
    case Prefill(prompt, _) => if succeeded then prompt else consumed
    case Decode(token, _) => if succeeded then consumed + [token] else consumed
  }

  /** The same after the first n calls of a run with these results. */
  ghost function Consumed<F>(calls: seq<Call>, results: seq<Result<seq<F>>>, n: nat): seq<int>
    requires n <= |calls| && n <= |results|
  {
    if n == 0 then []
    else AfterCall(Consumed(calls, results, n - 1), calls[n - 1], results[n - 1].Success?)
  }

  /** Whether a call is refused in a state that has consumed some tokens. */
  ghost function Rejects(config: Config, capacity: nat, consumed: seq<int>, call: Call): Outcome {
    match call
    case Reset => Pass
    case Prefill(prompt, _) => PrefillRejects(config, capacity, |consumed|, prompt)
    case Decode(token, _) => DecodeRejects(config, capacity, |consumed|, token)
  }

  /** Whether a shard throws in a call that is not refused. */
  ghost predicate CallThrows(config: Config, consumed: seq<int>, call: Call) {
    match call
    case Reset => false
    case Prefill(prompt, executor) =>
      exists position :: 0 <= position < |prompt| && TokenThrows(config, executor, position)
    case Decode(_, executor) => TokenThrows(config, executor, |consumed|)
  }

  /**
   What the result of a call must be, given the tokens consumed before and after it. A call that is not
   refused succeeds if and only if no shard throws in it.
   */
  ghost predicate CallCorrect<F>(m: Model<F>, capacity: nat, before: seq<int>, call: Call, r: Result<seq<F>>,
                                 after: seq<int>) {
    var rejected := Rejects(m.config, capacity, before, call);
    && (rejected.Fail? ==> r == Failure(rejected.error))
    && (rejected.Pass? ==> if CallThrows(m.config, before, call) then r == Failure(ShardFailure) else r.Success?)
    && (r.Success? && !call.Reset? ==> after != [] && Accepted(m, after) && r.value == NextLogits(m, after))
  }

  /**
   Any run of prefill, decode and reset on one session, refused and abandoned calls included: every
   successful call returns exactly the logits of a full pass over the tokens consumed since the reset.
   */
  method RunCalls<F>(session: InferenceSession<F>, calls: seq<Call>) returns (results: seq<Result<seq<F>>>)
    requires session.Valid() && session.history == []
    requires forall i :: 0 <= i < |calls| && !calls[i].Reset? ==> calls[i].executor.Valid()
    modifies session, session.Buffers()
    ensures session.Valid() && |results| == |calls|
    ensures session.history == Consumed(calls, results, |calls|)
    ensures RunCorrect(session.model, session.cache.capacity, calls, results)
  {
    hide *;
    results := [];
    RunStart(session.model, session.cache.capacity, calls);
    for i := 0 to |calls|
      invariant session.Valid() && |results| == i
      invariant session.history == Consumed(calls, results, i)
      invariant RunCorrect(session.model, session.cache.capacity, calls, results)
    {
      var r := RunCall(session, calls[i]);
      RunExtend(session.model, session.cache.capacity, calls, results, r);
      results := results + [r];
    }
  }

  /** Every result of a run is correct for the tokens consumed before and after its call. */
  ghost predicate RunCorrect<F>(m: Model<F>, capacity: nat, calls: seq<Call>, results: seq<Result<seq<F>>>) {
    && |results| <= |calls|
    && forall n :: 0 <= n < |results| ==>
         CallCorrect(m, capacity, Consumed(calls, results, n), calls[n], results[n], Consumed(calls, results, n + 1))
  }

  /** When no shard throws, every call of a run succeeds exactly if it is not refused. */
  lemma FaultlessRun<F>(m: Model<F>, capacity: nat, calls: seq<Call>, results: seq<Result<seq<F>>>, n: nat)
    requires RunCorrect(m, capacity, calls, results) && n < |results|
    requires !calls[n].Reset? ==> calls[n].executor.Faultless()
    ensures results[n].Success? <==> Rejects(m.config, capacity, Consumed(calls, results, n), calls[n]).Pass?
  {
    hide Consumed, TokenThrows, PrefillRejects, DecodeRejects;
    assert CallCorrect(m, capacity, Consumed(calls, results, n), calls[n], results[n], Consumed(calls, results, n + 1));
    if calls[n].Prefill? || calls[n].Decode? {
      forall position: nat ensures !TokenThrows(m.config, calls[n].executor, position) {
        FaultlessNeverThrows(m.config, calls[n].executor, position);
      }
    }
  }

  lemma RunStart<F>(m: Model<F>, capacity: nat, calls: seq<Call>)
    ensures RunCorrect<F>(m, capacity, calls, []) && Consumed<F>(calls, [], 0) == []
  {
  }

  lemma RunExtend<F>(m: Model<F>, capacity: nat, calls: seq<Call>, results: seq<Result<seq<F>>>, r: Result<seq<F>>)
    requires RunCorrect(m, capacity, calls, results) && |results| < |calls|
    requires var before := Consumed(calls, results, |results|);
             CallCorrect(m, capacity, before, calls[|results|], r, AfterCall(before, calls[|results|], r.Success?))
    ensures Consumed(calls, results + [r], |results| + 1)
         == AfterCall(Consumed(calls, results, |results|), calls[|results|], r.Success?)
    ensures RunCorrect(m, capacity, calls, results + [r])
  {
    hide CallCorrect, AfterCall, Consumed;
    var longer, i := results + [r], |results|;
    ConsumedLast(calls, results, r);
    ConsumedPrefix(calls, results, longer, i);
    forall n | 0 <= n <= i
      ensures CallCorrect(m, capacity, Consumed(calls, longer, n), calls[n], longer[n], Consumed(calls, longer, n + 1))
    {
      if n < i {
        ConsumedPrefix(calls, results, longer, n);
        ConsumedPrefix(calls, results, longer, n + 1);
      }
    }
  }

  lemma ConsumedLast<F>(calls: seq<Call>, results: seq<Result<seq<F>>>, r: Result<seq<F>>)
    requires |results| < |calls|
    ensures Consumed(calls, results + [r], |results| + 1)
         == AfterCall(Consumed(calls, results, |results|), calls[|results|], r.Success?)
  {
    ConsumedPrefix(calls, results, results + [r], |results|);
  }

  method RunCall<F>(session: InferenceSession<F>, call: Call) returns (r: Result<seq<F>>)
    requires session.Valid() && (!call.Reset? ==> call.executor.Valid())
    modifies session, session.Buffers()
    ensures session.Valid() && session.history == AfterCall(old(session.history), call, r.Success?)
    ensures CallCorrect(session.model, session.cache.capacity, old(session.history), call, r, session.history)
  {
    hide Holds, Accepted, NextLogits, TokenThrows;
    match call
    case Reset =>
      session.Reset();
      r := Success([]);
    case Prefill(prompt, executor) =>
      r := session.Prefill(prompt, executor);
    case Decode(token, executor) =>
      r := session.Decode(token, executor);
  }

  lemma {:induction false} ConsumedPrefix<F>(calls: seq<Call>, shorter: seq<Result<seq<F>>>,
                                             longer: seq<Result<seq<F>>>, n: nat)
    requires n <= |shorter| <= |calls| && shorter <= longer
    ensures Consumed(calls, shorter, n) == Consumed(calls, longer, n)
  {
    if n > 0 {
      ConsumedPrefix(calls, shorter, longer, n - 1);
    }
  }

  lemma AcceptNext<F>(m: Model<F>, prior: seq<int>, token: int)
    requires Accepted(m, prior) && |prior| < m.config.maxSequence && 0 <= token < m.config.vocabulary
    ensures Accepted(m, prior + [token])
  {
  }

  lemma EmbedLast<F>(m: Model<F>, prior: seq<int>, token: int)
    requires Accepted(m, prior + [token])
    ensures |Residual(m, prior + [token], 0)| == |prior| + 1
    ensures 0 <= token < m.config.vocabulary && |prior| < m.config.maxSequence
    ensures Residual(m, prior + [token], 0)[|prior|] == EmbedRow(m, token, |prior|)
  {
    assert (prior + [token])[|prior|] == token;
  }

  method EmbedInto<F>(m: Model<F>, residual: array<F>, token: int, position: nat)
    requires m.Valid() && 0 <= token < m.config.vocabulary && position < m.config.maxSequence
    requires residual.Length == m.config.channels
    modifies residual
    ensures residual[..] == EmbedRow(m, token, position)
  {
    hide EmbedRow;
    Forward.EmbedToken(m, residual, 0, token, position);
  }

  /** The end of consume_token for one residual row. */
  method LogitsStep<F>(m: Model<F>, executor: Executor, site: Site, normalized: array<F>, logits: array<F>, x: seq<F>)
    returns (r: Outcome)
    requires m.Valid() && executor.Valid() && normalized != logits
    requires normalized.Length == |x| == m.config.channels && logits.Length == m.config.vocabulary
    modifies normalized, logits
    ensures r.Pass? ==> logits[..] == LinearRow(m.ops, FinalRow(m, x), RealTable(m), [])
    ensures r.Pass? <==> !executor.Throws(site, m.config.channels, m.config.vocabulary)
    ensures r.Fail? ==> r.error == ShardFailure
  {
    m.SequenceWidths();
    ClosedForm(m.config, Lnfw);
    ClosedForm(m.config, Lnfb);
    ClosedForm(m.config, Wte);
    hide Count, OffsetTo;
    var c, v := m.config.channels, m.config.vocabulary;
    NormalizeRowInto(m.ops, normalized, x, m.Tensor(Lnfw), m.Tensor(Lnfb), c);
    var first: Word := v * c;
    FirstRows(m.Tensor(Wte), m.config.padded, c, v);
    r := RowLinear(m.ops, executor, site, logits, normalized[..], m.Tensor(Wte)[..first], [], c, v);
  }

  lemma CausalRowIs<F>(o: Ops<F>, qkv: seq<seq<F>>, r: nat, c: nat, heads: nat)
    requires r < |qkv| && IsMatrix(qkv, |qkv|, 3 * c) && ValidHeads(c, heads)
    ensures CausalRow(o, qkv, r, c, heads)
         == AttentionRow(o, qkv[r][..c], KeyRows(qkv, r + 1, c), ValueRows(qkv, r + 1, c), heads)
  {
  }

  lemma NextResidual<F>(m: Model<F>, tokens: seq<int>, n: nat)
    requires tokens != [] && Accepted(m, tokens) && n < m.config.layers
    ensures |CausalRow(m.ops, QkvOf(m, tokens, n), |tokens| - 1, m.config.channels, m.config.heads)|
         == m.config.channels
    ensures |Residual(m, tokens, n)[|tokens| - 1]| == m.config.channels
    ensures |Residual(m, tokens, n + 1)| == |tokens|
    ensures Residual(m, tokens, n + 1)[|tokens| - 1]
         == AfterMlp(m.ops, m.LayerOf(n), m.config.channels,
              AfterAttention(m.ops, m.LayerOf(n), m.config.channels, Residual(m, tokens, n)[|tokens| - 1],
                CausalRow(m.ops, QkvOf(m, tokens, n), |tokens| - 1, m.config.channels, m.config.heads)))
  {
    hide AfterMlp, AfterAttention, CausalRow;
  }

  lemma QkvParts<F>(y: seq<F>, c: nat)
    requires |y| == 3 * c
    ensures y[2 * c..3 * c] == y[2 * c..]
  {
  }

  /** Layer norm and the qkv projection of one row. */
  method QkvStep<F>(o: Ops<F>, executor: Executor, site: Site, normalized: array<F>, qkv: array<F>, x: seq<F>,
                    w: LayerWeights<F>, c: Word) returns (r: Outcome)
    requires executor.Valid() && w.Fits(c) && c > 0 && 3 * c * c <= SIZE_MAX && 3 * c <= SIZE_MAX
    requires normalized.Length == |x| == c && qkv.Length == 3 * c
    modifies normalized, qkv
    ensures r.Pass? ==> qkv[..] == QkvRow(o, w, c, x)
    ensures r.Pass? <==> !executor.Throws(site, c, 3 * c)
    ensures r.Fail? ==> r.error == ShardFailure
  {
    NormalizeRowInto(o, normalized, x, w.ln1w, w.ln1b, c);
    r := RowLinear(o, executor, site, qkv, normalized[..], w.qkvw, w.qkvb, c, 3 * c);
  }

  /** The attention projection and the first residual addition. */
  method ProjectStep<F>(o: Ops<F>, executor: Executor, site: Site, projected: array<F>, residual: array<F>,
                        attention: seq<F>, w: LayerWeights<F>, c: Word) returns (r: Outcome)
    requires executor.Valid() && w.Fits(c) && c * c <= SIZE_MAX && projected != residual
    requires projected.Length == residual.Length == |attention| == c
    modifies projected, residual
    ensures r.Pass? ==> residual[..] == AfterAttention(o, w, c, old(residual[..]), attention)
    ensures r.Pass? <==> !executor.Throws(site, c, c)
    ensures r.Fail? ==> r.error == ShardFailure
  {
    r := RowLinear(o, executor, site, projected, attention, w.attprojw, w.attprojb, c, c);
    if r.Fail? {
      return;
    }
    assert residual[..] == old(residual[..]);
    AddRowInto(o, residual, projected[..]);
    return Pass;
  }

  /** The MLP half of a layer. */
  method MlpStep<F>(o: Ops<F>, executor: Executor, first: Site, second: Site, normalized: array<F>,
                    hidden: array<F>, projected: array<F>, residual: array<F>, w: LayerWeights<F>, c: Word)
    returns (r: Outcome)
    requires executor.Valid() && w.Fits(c) && c > 0 && 4 * c <= SIZE_MAX && 4 * c * c == c * (4 * c) <= SIZE_MAX
    requires normalized.Length == projected.Length == residual.Length == c && hidden.Length == 4 * c
    requires residual !in {normalized, hidden, projected}
    modifies normalized, hidden, projected, residual
    ensures r.Pass? ==> residual[..] == AfterMlp(o, w, c, old(residual[..]))
    ensures r.Pass? <==> !executor.Throws(first, c, 4 * c) && !executor.Throws(second, 4 * c, c)
    ensures r.Fail? ==> r.error == ShardFailure
  {
    ghost var x := residual[..];
    NormalizeRowInto(o, normalized, residual[..], w.ln2w, w.ln2b, c);
    :- RowLinear(o, executor, first, hidden, normalized[..], w.fcw, w.fcb, c, 4 * c);
    GeluInPlace(o, hidden);
    assert hidden[..] == HiddenRow(o, w, c, x);
    :- RowLinear(o, executor, second, projected, hidden[..], w.fcprojw, w.fcprojb, 4 * c, c);
    assert residual[..] == x;
    AddRowInto(o, residual, projected[..]);
    return Pass;
  }
}
