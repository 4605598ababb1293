/** Greedy generation: by full forward passes, and by a cached session. */
module Generation {
  import opened Wrappers
  import opened Words
  import opened Arithmetic
  import opened Matrices
  import opened Layout
  import opened Model
  import opened FullPrefix
  import opened LinearExecutor
  import opened Session
  import CacheContents
  import Forward

  /** std::max_element over the first n values: the last strict improvement from the left. */
  ghost function ArgMaxTo<F>(o: Ops<F>, x: seq<F>, n: nat): (best: nat)
    requires 0 < n <= |x|
    ensures best < n
  {
    if n == 1 then 0
    else
      var best := ArgMaxTo(o, x, n - 1);
      if o.Lt(x[best], x[n - 1]) then n - 1 else best
  }

  method GreedyToken<F>(o: Ops<F>, logits: seq<F>) returns (token: nat)
    requires 0 < |logits| <= INT32_MAX
    ensures token == ArgMaxTo(o, logits, |logits|)
    ensures token <= INT32_MAX
  {
    token := 0;
    for i := 1 to |logits|
      invariant token == ArgMaxTo(o, logits, i)
    {
      if o.Lt(logits[token], logits[i]) {
        token := i;
      }
    }
  }

  /** The laws of a strict weak order, which std::max_element asks for and NaN breaks. */
  ghost predicate StrictWeakOrder<F(!new)>(o: Ops<F>) {
    && (forall a: F, b: F :: o.Lt(a, b) ==> !o.Lt(b, a))
    && (forall a: F, b: F, c: F :: !o.Lt(a, b) && !o.Lt(b, c) ==> !o.Lt(a, c))
  }

  /** Under those laws the greedy token is the first of the greatest logits. */
  lemma {:induction false} GreedyIsFirstGreatest<F(!new)>(o: Ops<F>, x: seq<F>, n: nat)
    requires StrictWeakOrder(o) && 0 < n <= |x|
    ensures forall j :: 0 <= j < n ==> !o.Lt(x[ArgMaxTo(o, x, n)], x[j])
    ensures forall j :: 0 <= j < ArgMaxTo(o, x, n) ==> o.Lt(x[j], x[ArgMaxTo(o, x, n)])
  {
    if n > 1 {
      GreedyIsFirstGreatest(o, x, n - 1);
      var best := ArgMaxTo(o, x, n - 1);
      if o.Lt(x[best], x[n - 1]) {
        forall j | 0 <= j < n - 1 ensures o.Lt(x[j], x[n - 1]) {
          assert !o.Lt(x[best], x[j]);
        }
      }
    }
  }

  /** The token that greedy generation appends to a sequence. */
  ghost function NextToken<F>(m: Model<F>, tokens: seq<int>): (t: nat)
    requires Accepted(m, tokens) && tokens != []
    ensures t < m.config.vocabulary
  {
    ArgMaxTo(m.ops, NextLogits(m, tokens), m.config.vocabulary)
  }

  /** The prompt followed by n greedily chosen tokens. */
  ghost function Greedy<F>(m: Model<F>, prompt: seq<int>, n: nat): (tokens: seq<int>)
    requires Accepted(m, prompt) && prompt != [] && |prompt| + n <= m.config.maxSequence
    ensures Accepted(m, tokens) && |tokens| == |prompt| + n
  {
    if n == 0 then prompt
    else
      var before := Greedy(m, prompt, n - 1);
      var next := NextToken(m, before);
      AcceptNext(m, before, next);
      before + [next as int]
  }

  datatype Generated<F> = Generated(tokens: seq<int>, dump: Option<seq<F>>)

  /** The end of forward's logits is the last row, and its beginning the logits that select the next token. */
  lemma LastRow<F>(m: Model<F>, tokens: seq<int>)
    requires Accepted(m, tokens) && tokens != []
    ensures var all := Flat(Forward.AllLogits(m, tokens));
            && |all| >= m.config.padded >= m.config.vocabulary
            && all[|all| - m.config.padded..] == LogitsRow(m, tokens, |tokens| - 1)
            && all[|all| - m.config.padded..][..m.config.vocabulary] == NextLogits(m, tokens)
  {
    hide LogitsRow;
    var rows := Forward.AllLogits(m, tokens);
    assert Flat(rows) == Flat(rows[..|rows| - 1]) + rows[|rows| - 1];
  }

  /** One forward pass, and its logits.last(padded_vocabulary_size). */
  method LastLogits<F>(m: Model<F>, tokens: seq<int>, ws: Forward.Workspace<F>) returns (r: Result<seq<F>>)
    requires m.Valid() && ws.Valid() && |tokens| <= SIZE_MAX
    modifies ws, ws.Buffers()
    ensures ws.Valid() && fresh(ws.Buffers() - old(ws.Buffers()))
    ensures r.Success? <==> tokens != [] && Accepted(m, tokens)
    ensures r.Success? ==> r.value == LogitsRow(m, tokens, |tokens| - 1)
    ensures r.Failure? ==> r.error == InvalidArgument
  {
    hide Accepted, LogitsRow, Forward.AllLogits, Flat;
    var logits := Forward.Forward(m, tokens, ws);
    if logits.Failure? {
      return logits;
    }
    LastRow(m, tokens);
    return Success(logits.value[|logits.value| - m.config.padded..]);
  }

  /**
   generate_full, for a request that passed the length check of main: one full pass per generated
   token, and one more for the final sequence when its logits are needed.
   */
  method GenerateFull<F>(m: Model<F>, prompt: seq<int>, maxNew: Word, dump: bool) returns (r: Result<Generated<F>>)
    requires m.Valid() && |prompt| + maxNew <= m.config.maxSequence
    ensures r.Success? <==> prompt != [] && ValidTokens(m.config, prompt)
    ensures r.Success? ==>
              && r.value.tokens == Greedy(m, prompt, maxNew)
              && r.value.dump == if dump then Some(LogitsRow(m, r.value.tokens, |r.value.tokens| - 1)) else None
    ensures r.Failure? ==> r.error == InvalidArgument
  {
    hide *;
    FullFacts(m, prompt, maxNew);
    var ws := new Forward.Workspace(m.ops);
    ghost var owned: set<array<F>> := ws.Buffers();
    var tokens := prompt;
    for step := 0 to maxNew
      invariant ws.Valid() && fresh(ws) && owned == ws.Buffers() && fresh(owned)
      invariant step == 0 || (prompt != [] && Accepted(m, prompt))
      invariant prompt != [] && Accepted(m, prompt) ==> tokens == Greedy(m, prompt, step)
      invariant !(prompt != [] && Accepted(m, prompt)) ==> tokens == prompt
    {
      label call:
      var logits := LastLogits(m, tokens, ws);
      ghost var added: set<array<F>> := ws.Buffers() - owned;
      assert fresh@call(added);
      assert forall b :: b in added ==> fresh@call(b);
      assert forall b :: b in ws.Buffers() ==> b in added || b in owned;
      assert forall b :: b in ws.Buffers() ==> fresh(b);
      owned := ws.Buffers();
      if logits.Failure? {
        return Failure(logits.error);
      }
      NextTokenIs(m, tokens, logits.value);
      GreedyNext(m, prompt, step);
      var next := GreedyToken(m.ops, logits.value[..m.config.vocabulary]);
      tokens := tokens + [next as int];
    }
    if maxNew == 0 || dump {
      var logits := LastLogits(m, tokens, ws);
      if logits.Failure? {
        return Failure(logits.error);
      }
      return Success(Generated(tokens, if dump then Some(logits.value) else None));
    }
    return Success(Generated(tokens, None));
  }

  lemma FullFacts<F>(m: Model<F>, prompt: seq<int>, maxNew: nat)
    requires m.Valid() && |prompt| + maxNew <= m.config.maxSequence
    ensures m.config.maxSequence <= SIZE_MAX
    ensures Accepted(m, prompt) <==> ValidTokens(m.config, prompt)
    ensures prompt != [] && Accepted(m, prompt) ==> Greedy(m, prompt, 0) == prompt
    ensures prompt != [] && Accepted(m, prompt) ==>
              forall n | 0 <= n <= maxNew :: Accepted(m, Greedy(m, prompt, n)) && |Greedy(m, prompt, n)| == |prompt| + n
  {
  }

  lemma GreedyNext<F>(m: Model<F>, prompt: seq<int>, n: nat)
    requires Accepted(m, prompt) && prompt != [] && |prompt| + n < m.config.maxSequence
    ensures Greedy(m, prompt, n + 1) == Greedy(m, prompt, n) + [NextToken(m, Greedy(m, prompt, n)) as int]
  {
    hide NextToken;
  }

  /** The next token in the words of the code: max_element over the unpadded last row. */
  lemma NextTokenIs<F>(m: Model<F>, tokens: seq<int>, row: seq<F>)
    requires Accepted(m, tokens) && tokens != [] && row == LogitsRow(m, tokens, |tokens| - 1)
    ensures |row| == m.config.padded >= m.config.vocabulary && 0 < m.config.vocabulary <= INT32_MAX
    ensures NextToken(m, tokens) == ArgMaxTo(m.ops, row[..m.config.vocabulary], m.config.vocabulary)
  {
    hide LogitsRow, ArgMaxTo;
  }

  /**
   How many tokens a cached request consumes: the prompt, all generated tokens but the last, and for a
   dump the last.
   */
  function Required(prompt: nat, maxNew: nat, dump: bool): nat {
    prompt + (if maxNew == 0 then 0 else maxNew - 1) + (if dump && maxNew != 0 then 1 else 0)
  }

  /** What a cached request needs beyond a valid prompt. */
  ghost predicate CapacitySuffices<F>(m: Model<F>, prompt: nat, maxNew: nat, dump: bool, capacity: nat) {
    && Required(prompt, maxNew, dump) <= capacity <= m.config.maxSequence && capacity > 0
    && 8 * (m.config.layers * (capacity * m.config.channels)) <= SIZE_MAX
  }

  /** How the code refuses a capacity: the count, then the context length, then the size of the cache. */
  function CapacityError<F>(m: Model<F>, prompt: nat, maxNew: nat, dump: bool, capacity: nat): Error {
    if Required(prompt, maxNew, dump) > capacity || capacity == 0 || capacity > m.config.maxSequence
    then InvalidArgument
    else Overflow
  }

  function Capacity(config: Config, option: Option<Word>): Word {
    match option
    case Some(capacity) => capacity
    case None => config.maxSequence
  }

  /** Some token consumed at a position from first up to last is abandoned because a shard throws. */
  ghost predicate RequestThrows(config: Config, executor: Executor, first: nat, last: nat) {
    exists position :: first <= position < last && TokenThrows(config, executor, position)
  }

  lemma RequestExtends(config: Config, executor: Executor, first: nat, middle: nat, last: nat)
    requires first <= middle <= last
    ensures RequestThrows(config, executor, first, last) <==>
              RequestThrows(config, executor, first, middle) || RequestThrows(config, executor, middle, last)
    ensures RequestThrows(config, executor, middle, middle + 1) <==> TokenThrows(config, executor, middle)
    ensures !RequestThrows(config, executor, first, first)
  {
    hide TokenThrows;
  }

  lemma FaultlessRequest(config: Config, executor: Executor, first: nat, last: nat)
    requires executor.Faultless()
    ensures !RequestThrows(config, executor, first, last)
  {
    hide TokenThrows;
    forall position: nat ensures !TokenThrows(config, executor, position) {
      FaultlessNeverThrows(config, executor, position);
    }
  }

  /** prefill of a valid prompt that fits a new session: only a shard can make it fail. */
  method PrefillValid<F>(session: InferenceSession<F>, prompt: seq<int>, executor: Executor) returns (r: Result<seq<F>>)
    requires session.Valid() && session.history == [] && executor.Valid()
    requires |prompt| <= session.cache.capacity
    modifies session, session.Buffers()
    ensures session.Valid()
    ensures r.Success? ==> prompt != [] && Accepted(session.model, prompt) && session.history == prompt
                           && r.value == NextLogits(session.model, prompt)
    ensures r.Success? <==> && prompt != [] && ValidTokens(session.model.config, prompt)
                            && !RequestThrows(session.model.config, executor, 0, |prompt|)
    ensures r.Failure? && prompt != [] && ValidTokens(session.model.config, prompt) ==> r.error == ShardFailure
    ensures r.Failure? && !(prompt != [] && ValidTokens(session.model.config, prompt)) ==> r.error == InvalidArgument
  {
    hide Accepted, NextLogits, CacheContents.Holds, ValidTokens, TokenThrows;
    r := session.Prefill(prompt, executor);
  }

  /** decode of a greedy token with a free slot: only a shard can make it fail. */
  method DecodeValid<F>(session: InferenceSession<F>, token: int, executor: Executor) returns (r: Result<seq<F>>)
    requires session.Valid() && executor.Valid() && session.history != []
    requires |session.history| < session.cache.capacity && 0 <= token < session.model.config.vocabulary
    modifies session, session.Buffers()
    ensures session.Valid()
    ensures r.Success? ==> session.history == old(session.history) + [token] && Accepted(session.model, session.history)
                           && r.value == NextLogits(session.model, session.history)
    ensures r.Success? <==> !TokenThrows(session.model.config, executor, |old(session.history)|)
    ensures r.Failure? ==> r.error == ShardFailure
  {
    hide Accepted, NextLogits, CacheContents.Holds, TokenThrows;
    r := session.Decode(token, executor);
  }

  lemma {:induction false} GreedyFacts<F>(m: Model<F>, prompt: seq<int>, n: nat)
    requires Accepted(m, prompt) && prompt != [] && |prompt| + n < m.config.maxSequence + 1
    ensures Greedy(m, prompt, 0) == prompt
    ensures m.Valid() && Accepted(m, Greedy(m, prompt, n)) && |Greedy(m, prompt, n)| == |prompt| + n
    ensures 0 < m.config.vocabulary <= INT32_MAX
    ensures |NextLogits(m, Greedy(m, prompt, n))| == m.config.vocabulary
    ensures NextToken(m, Greedy(m, prompt, n))
         == ArgMaxTo(m.ops, NextLogits(m, Greedy(m, prompt, n)), m.config.vocabulary) < m.config.vocabulary
    ensures n > 0 ==>
              Greedy(m, prompt, n) == Greedy(m, prompt, n - 1) + [NextToken(m, Greedy(m, prompt, n - 1)) as int]
  {
    hide NextLogits;
  }

  /** The loop of generate_cached: maxNew tokens, and a decode after each but the last. */
  method DecodeLoop<F>(session: InferenceSession<F>, first: seq<F>, prompt: seq<int>, maxNew: Word, executor: Executor)
    returns (r: Result<seq<int>>, logits: seq<F>)
    requires session.Valid() && executor.Valid() && prompt != [] && session.history == prompt
    requires Accepted(session.model, prompt) && |prompt| + maxNew <= session.model.config.maxSequence
    requires |prompt| + (if maxNew == 0 then 0 else maxNew - 1) <= session.cache.capacity
    requires first == NextLogits(session.model, prompt)
    modifies session, session.Buffers()
    ensures session.Valid()
    ensures r.Success? ==> r.value == Greedy(session.model, prompt, maxNew)
    ensures r.Success? ==> session.history == Greedy(session.model, prompt, if maxNew == 0 then 0 else maxNew - 1)
    ensures r.Success? ==> logits == NextLogits(session.model, session.history)
    ensures r.Success? <==> !RequestThrows(session.model.config, executor, |prompt|,
                                           |prompt| + (if maxNew == 0 then 0 else maxNew - 1))
    ensures r.Failure? ==> r.error == ShardFailure
  {
    hide *;
    var m := session.model;
    GreedyFacts(m, prompt, 0);
    RequestExtends(m.config, executor, |prompt|, |prompt|, |prompt|);
    logits := first;
    var tokens := prompt;
    for step := 0 to maxNew
      invariant session.Valid() && tokens == Greedy(m, prompt, step)
      invariant session.history == Greedy(m, prompt, if step == maxNew && maxNew > 0 then step - 1 else step)
      invariant logits == NextLogits(m, session.history)
      invariant !RequestThrows(m.config, executor, |prompt|, |session.history|)
    {
      GreedyFacts(m, prompt, step);
      GreedyFacts(m, prompt, step + 1);
      var next := GreedyToken(m.ops, logits);
      tokens := tokens + [next as int];
      if step + 1 < maxNew {
        RequestExtends(m.config, executor, |prompt|, |prompt| + step, |prompt| + step + 1);
        RequestExtends(m.config, executor, |prompt|, |prompt| + step + 1, |prompt| + maxNew - 1);
        var decoded := DecodeValid(session, next, executor);
        if decoded.Failure? {
          return Failure(decoded.error), [];
        }
        logits := decoded.value;
      }
    }
    return Success(tokens), logits;
  }

  /** The session part of generate_cached, from an empty session that is large enough. */
  method RunCached<F>(session: InferenceSession<F>, prompt: seq<int>, maxNew: Word, dump: bool, executor: Executor)
    returns (r: Result<Generated<F>>)
    requires session.Valid() && executor.Valid() && session.history == []
    requires |prompt| + maxNew <= session.model.config.maxSequence
    requires Required(|prompt|, maxNew, dump) <= session.cache.capacity
    modifies session, session.Buffers()
    ensures session.Valid()
    ensures r.Success? ==>
              && prompt != [] && Accepted(session.model, prompt)
              && |session.history| == session.size == Required(|prompt|, maxNew, dump)
              && r.value.tokens == Greedy(session.model, prompt, maxNew)
              && r.value.dump == if dump then Some(NextLogits(session.model, r.value.tokens)) else None
    ensures r.Success? <==> && prompt != [] && ValidTokens(session.model.config, prompt)
                            && !RequestThrows(session.model.config, executor, 0, Required(|prompt|, maxNew, dump))
    ensures r.Failure? ==>
              r.error == if prompt != [] && ValidTokens(session.model.config, prompt) then ShardFailure
                         else InvalidArgument
  {
    hide Accepted, NextLogits, Greedy, NextToken, ValidTokens, InferenceSession<F>.Valid, RequestThrows, TokenThrows;
    hide CacheContents.Holds;
    var m := session.model;
    ghost var decoding: nat := |prompt| + (if maxNew == 0 then 0 else maxNew - 1);
    RequestExtends(m.config, executor, 0, |prompt|, decoding);
    RequestExtends(m.config, executor, 0, decoding, decoding + 1);
    var prefilled := PrefillValid(session, prompt, executor);
    if prefilled.Failure? {
      return Failure(prefilled.error);
    }
    var decoded, logits := DecodeLoop(session, prefilled.value, prompt, maxNew, executor);
    if decoded.Failure? {
      return Failure(decoded.error);
    }
    var tokens := decoded.value;
    GreedyFacts(m, prompt, maxNew);
    if maxNew > 0 {
      GreedyFacts(m, prompt, maxNew - 1);
    }
    if !dump {
      session.SizeIsHistory();
      return Success(Generated(tokens, None));
    }
    if maxNew != 0 {
      var last := DecodeValid(session, tokens[|tokens| - 1], executor);
      if last.Failure? {
        return Failure(last.error);
      }
      logits := last.value;
    }
    session.SizeIsHistory();
    return Success(Generated(tokens, Some(logits)));
  }

  /**
   generate_cached. Its capacity check counts exactly: the session ends with Required tokens, so no
   decode it makes is ever refused. Every failure it can report is a bad prompt, a capacity that does
   not suffice, or a failed shard.
   */
  method GenerateCached<F>(m: Model<F>, prompt: seq<int>, maxNew: Word, dump: bool, option: Option<Word>,
                           executor: Executor)
    returns (r: Result<Generated<F>>, consumed: nat)
    requires m.Valid() && executor.Valid() && |prompt| + maxNew <= m.config.maxSequence
    ensures r.Success? ==>
              && prompt != [] && ValidTokens(m.config, prompt)
              && CapacitySuffices(m, |prompt|, maxNew, dump, Capacity(m.config, option))
              && consumed == Required(|prompt|, maxNew, dump)
              && r.value.tokens == Greedy(m, prompt, maxNew)
              && r.value.dump == if dump then Some(NextLogits(m, r.value.tokens)) else None
    ensures r.Success? <==>
              && prompt != [] && ValidTokens(m.config, prompt)
              && CapacitySuffices(m, |prompt|, maxNew, dump, Capacity(m.config, option))
              && !RequestThrows(m.config, executor, 0, Required(|prompt|, maxNew, dump))
    ensures r.Failure? ==>
              r.error == if !CapacitySuffices(m, |prompt|, maxNew, dump, Capacity(m.config, option))
                         then CapacityError(m, |prompt|, maxNew, dump, Capacity(m.config, option))
                         else if prompt != [] && ValidTokens(m.config, prompt) then ShardFailure
                         else InvalidArgument
  {
    hide Greedy, NextLogits, ValidTokens, InferenceSession<F>.Valid, RequestThrows;
    consumed := 0;
    var capacity := Capacity(m.config, option);
    var required: Word := Required(|prompt|, maxNew, dump);
    if required > capacity {
      return Failure(InvalidArgument), 0;
    }
    var created := CreateSession(m, capacity);
    if created.Failure? {
      return Failure(created.error), 0;
    }
    var session := created.value;
    r := RunCached(session, prompt, maxNew, dump, executor);
    consumed := session.size;
  }

  lemma DumpPrefix<F>(m: Model<F>, prompt: seq<int>, maxNew: nat)
    requires m.Valid() && |prompt| + maxNew <= m.config.maxSequence && prompt != [] && ValidTokens(m.config, prompt)
    ensures m.config.vocabulary <= m.config.padded
    ensures var tokens := Greedy(m, prompt, maxNew);
            && |LogitsRow(m, tokens, |tokens| - 1)| == m.config.padded
            && NextLogits(m, tokens) == LogitsRow(m, tokens, |tokens| - 1)[..m.config.vocabulary]
  {
    hide LogitsRow, Greedy;
  }

  /**
   Both modes on one request. When both finish they produce the same tokens, and the cached dump is
   the unpadded part of the full dump. Cached mode never finishes where full mode fails; it fails where
   full mode succeeds exactly if the capacity does not suffice or a shard throws.
   */
  method GenerateBoth<F>(m: Model<F>, prompt: seq<int>, maxNew: Word, dump: bool, option: Option<Word>,
                         executor: Executor)
    returns (full: Result<Generated<F>>, cached: Result<Generated<F>>)
    requires m.Valid() && executor.Valid() && |prompt| + maxNew <= m.config.maxSequence
    ensures full.Success? && cached.Success? ==>
              && full.value.tokens == cached.value.tokens
              && full.value.dump.Some? == cached.value.dump.Some? == dump
              && (dump ==> |full.value.dump.value| == m.config.padded
                           && cached.value.dump.value == full.value.dump.value[..m.config.vocabulary])
    ensures cached.Success? ==> full.Success?
    ensures full.Success? ==>
              (cached.Success? <==> && CapacitySuffices(m, |prompt|, maxNew, dump, Capacity(m.config, option))
                                    && !RequestThrows(m.config, executor, 0, Required(|prompt|, maxNew, dump)))
    ensures executor.Faultless() && full.Success? ==>
              (cached.Success? <==> CapacitySuffices(m, |prompt|, maxNew, dump, Capacity(m.config, option)))
  {
    hide *;
    if executor.Faultless() {
      FaultlessRequest(m.config, executor, 0, Required(|prompt|, maxNew, dump));
    }
    full := GenerateFull(m, prompt, maxNew, dump);
    if full.Success? {
      DumpPrefix(m, prompt, maxNew);
    }
    var consumed;
    cached, consumed := GenerateCached(m, prompt, maxNew, dump, option, executor);
  }

  datatype Mode = Full | Cached(capacity: Option<Word>, executor: Executor)

  /**
   main, after the options are parsed. A request runs only if its whole output fits the model's context,
   checked without overflow. Full mode then succeeds exactly on a valid prompt and dumps the whole padded
   last row; cached mode takes the whole context for its capacity unless one is given, succeeds exactly
   if the prompt is valid, that capacity suffices and no shard throws, and dumps the unpadded row.
   */
  method Generate<F>(m: Model<F>, prompt: seq<int>, maxNew: Word, dump: bool, mode: Mode)
    returns (r: Result<Generated<F>>)
    requires m.Valid() && |prompt| <= SIZE_MAX && (mode.Cached? ==> mode.executor.Valid())
    ensures |prompt| + maxNew > m.config.maxSequence ==> r == Failure(InvalidArgument)
    ensures r.Success? ==> && |prompt| + maxNew <= m.config.maxSequence
                           && prompt != [] && ValidTokens(m.config, prompt)
                           && r.value.tokens == Greedy(m, prompt, maxNew)
    ensures mode.Full? ==> (r.Success? <==> && |prompt| + maxNew <= m.config.maxSequence
                                            && prompt != [] && ValidTokens(m.config, prompt))
    ensures mode.Full? && r.Success? ==>
              r.value.dump == if dump then Some(LogitsRow(m, r.value.tokens, |r.value.tokens| - 1)) else None
    ensures mode.Full? && r.Failure? ==> r.error == InvalidArgument
    ensures mode.Cached? ==>
              var capacity := match mode.capacity case Some(given) => given case None => m.config.maxSequence;
              && (r.Success? <==>
                    && |prompt| + maxNew <= m.config.maxSequence && prompt != [] && ValidTokens(m.config, prompt)
                    && CapacitySuffices(m, |prompt|, maxNew, dump, capacity)
                    && !RequestThrows(m.config, mode.executor, 0, Required(|prompt|, maxNew, dump)))
              && (r.Failure? && |prompt| + maxNew <= m.config.maxSequence ==>
                    r.error == if !CapacitySuffices(m, |prompt|, maxNew, dump, capacity)
                               then CapacityError(m, |prompt|, maxNew, dump, capacity)
                               else if prompt != [] && ValidTokens(m.config, prompt) then ShardFailure
                               else InvalidArgument)
    ensures mode.Cached? && r.Success? ==>
              r.value.dump == if dump then Some(NextLogits(m, r.value.tokens)) else None
  {
    hide Greedy, NextLogits, LogitsRow, ValidTokens, CapacitySuffices, RequestThrows, Required, CapacityError;
    if |prompt| > m.config.maxSequence || maxNew > m.config.maxSequence - |prompt| {
      return Failure(InvalidArgument);
    }
    match mode
    case Full =>
      r := GenerateFull(m, prompt, maxNew, dump);
    case Cached(capacity, executor) =>
      var consumed;
      r, consumed := GenerateCached(m, prompt, maxNew, dump, capacity, executor);
  }
}
