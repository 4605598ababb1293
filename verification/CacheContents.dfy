/**
 What the cache must hold for a consumed history: the key and value rows that a full forward pass
 over that history computes. Stated on the tables of a cache, without its buffers.
 */
module CacheContents {
  import opened Matrices
  import opened Reference
  import opened Model
  import opened FullPrefix

  type LayerTable<F> = seq<seq<seq<F>>>

  /** A table of the right shape for a model and a capacity. */
  ghost predicate Shaped<F>(m: Model<F>, t: LayerTable<F>, capacity: nat) {
    && |t| == m.config.layers
    && forall l :: 0 <= l < |t| ==> IsMatrix(t[l], capacity, m.config.channels)
  }

  /** Row p of layer l holds the key and the value of position p of the full pass over tokens. */
  ghost predicate HoldsAt<F>(m: Model<F>, keys: LayerTable<F>, values: LayerTable<F>, capacity: nat, tokens: seq<int>,
                             l: nat,
                             p: nat)
    requires Shaped(m, keys, capacity) && Shaped(m, values, capacity)
    requires Accepted(m, tokens) && p < |tokens| <= capacity && l < m.config.layers
  {
    && keys[l][p] == QkvOf(m, tokens, l)[p][m.config.channels..2 * m.config.channels]
    && values[l][p] == QkvOf(m, tokens, l)[p][2 * m.config.channels..]
  }

  /** Every layer holds every position of the history. Rows beyond the history may hold anything. */
  ghost predicate Holds<F>(m: Model<F>, keys: LayerTable<F>, values: LayerTable<F>, capacity: nat, history: seq<int>) {
    && Shaped(m, keys, capacity) && Shaped(m, values, capacity)
    && Accepted(m, history) && |history| <= capacity
    && forall l, p | 0 <= l < m.config.layers && 0 <= p < |history| :: HoldsAt(m, keys, values, capacity, history, l, p)
  }

  /** The working state of consume_token: all of the prior history, and the new token in the first n layers. */
  ghost predicate HoldsThrough<F>(m: Model<F>, keys: LayerTable<F>, values: LayerTable<F>, capacity: nat,
                                  tokens: seq<int>,
                                  n: nat) {
    && tokens != [] && Accepted(m, tokens) && |tokens| <= capacity && n <= m.config.layers
    && var last := |tokens| - 1;
       && Holds(m, keys, values, capacity, tokens[..last])
       && forall l | 0 <= l < n :: HoldsAt(m, keys, values, capacity, tokens, l, last)
  }

  lemma HoldsAtPrefix<F>(m: Model<F>, keys: LayerTable<F>, values: LayerTable<F>, capacity: nat, tokens: seq<int>,
                         k: nat,
                         l: nat, p: nat)
    requires Shaped(m, keys, capacity) && Shaped(m, values, capacity)
    requires Accepted(m, tokens) && p < k <= |tokens| <= capacity && l < m.config.layers
    ensures Accepted(m, tokens[..k])
    ensures HoldsAt(m, keys, values, capacity, tokens[..k], l, p) == HoldsAt(m, keys, values, capacity, tokens, l, p)
  {
    hide QkvOf, Residual, LogitsRow, Accepted;
    AcceptedPrefix(m, tokens, k);
    Causality(m, tokens, k, p);
  }

  /** Starting a token changes nothing. */
  lemma StartToken<F>(m: Model<F>, keys: LayerTable<F>, values: LayerTable<F>, capacity: nat, prior: seq<int>,
                      token: int)
    requires Holds(m, keys, values, capacity, prior) && Accepted(m, prior + [token]) && |prior| < capacity
    ensures HoldsThrough(m, keys, values, capacity, prior + [token], 0)
  {
    assert (prior + [token])[..|prior|] == prior;
  }

  /** Storing the new token's key and value in layer n completes that layer and disturbs no other row. */
  lemma StoreLayer<F>(m: Model<F>, keys: LayerTable<F>, values: LayerTable<F>, capacity: nat, tokens: seq<int>, n: nat,
                      key: seq<F>, value: seq<F>)
    requires HoldsThrough(m, keys, values, capacity, tokens, n) && n < m.config.layers
    requires key == QkvOf(m, tokens, n)[|tokens| - 1][m.config.channels..2 * m.config.channels]
    requires value == QkvOf(m, tokens, n)[|tokens| - 1][2 * m.config.channels..]
    ensures HoldsThrough(m, keys[n := keys[n][|tokens| - 1 := key]], values[n := values[n][|tokens| - 1 := value]],
                         capacity, tokens, n + 1)
  {
    hide QkvOf, Accepted;
    var p := |tokens| - 1;
    var prior := tokens[..p];
    var k, v := keys[n := keys[n][p := key]], values[n := values[n][p := value]];
    assert Shaped(m, k, capacity) && Shaped(m, v, capacity);
    forall l, q | 0 <= l < m.config.layers && 0 <= q < |prior| ensures HoldsAt(m, k, v, capacity, prior, l, q) {
      assert HoldsAt(m, keys, values, capacity, prior, l, q);
    }
    forall l | 0 <= l < n + 1 ensures HoldsAt(m, k, v, capacity, tokens, l, p) {
      if l < n {
        assert HoldsAt(m, keys, values, capacity, tokens, l, p);
      }
    }
  }

  /** After the store, the visible rows of layer n are the keys and values of the full pass. */
  lemma VisibleRows<F>(m: Model<F>, keys: LayerTable<F>, values: LayerTable<F>, capacity: nat, tokens: seq<int>, n: nat)
    requires HoldsThrough(m, keys, values, capacity, tokens, n + 1) && n < m.config.layers
    ensures keys[n][..|tokens|] == KeyRows(QkvOf(m, tokens, n), |tokens|, m.config.channels)
    ensures values[n][..|tokens|] == ValueRows(QkvOf(m, tokens, n), |tokens|, m.config.channels)
  {
    hide QkvOf, Accepted;
    forall p | 0 <= p < |tokens| ensures HoldsAt(m, keys, values, capacity, tokens, n, p) {
      if p < |tokens| - 1 {
        HoldsAtPrefix(m, keys, values, capacity, tokens, |tokens| - 1, n, p);
        assert HoldsAt(m, keys, values, capacity, tokens[..|tokens| - 1], n, p);
      }
    }
    var k := KeyRows(QkvOf(m, tokens, n), |tokens|, m.config.channels);
    var v := ValueRows(QkvOf(m, tokens, n), |tokens|, m.config.channels);
    forall p | 0 <= p < |tokens| ensures keys[n][p] == k[p] && values[n][p] == v[p] {
      assert HoldsAt(m, keys, values, capacity, tokens, n, p);
    }
  }

  /** Once every layer has stored the new token, the cache holds the longer history. */
  lemma FinishToken<F>(m: Model<F>, keys: LayerTable<F>, values: LayerTable<F>, capacity: nat, tokens: seq<int>)
    requires HoldsThrough(m, keys, values, capacity, tokens, m.config.layers)
    ensures Holds(m, keys, values, capacity, tokens)
  {
    hide HoldsAt;
    forall l, p | 0 <= l < m.config.layers && 0 <= p < |tokens|
      ensures HoldsAt(m, keys, values, capacity, tokens, l, p)
    {
      if p < |tokens| - 1 {
        HoldsAtPrefix(m, keys, values, capacity, tokens, |tokens| - 1, l, p);
      }
    }
  }

  /** An abandoned token leaves the prior history intact. */
  lemma AbandonToken<F>(m: Model<F>, keys: LayerTable<F>, values: LayerTable<F>, capacity: nat, prior: seq<int>,
                        token: int,
                        n: nat)
    requires HoldsThrough(m, keys, values, capacity, prior + [token], n)
    ensures Holds(m, keys, values, capacity, prior)
  {
    assert (prior + [token])[..|prior|] == prior;
  }

  /** A cache that holds a history holds the empty one: reset need not clear anything. */
  lemma ForgetAll<F>(m: Model<F>, keys: LayerTable<F>, values: LayerTable<F>, capacity: nat)
    requires m.Valid() && Shaped(m, keys, capacity) && Shaped(m, values, capacity)
    ensures Holds(m, keys, values, capacity, [])
  {
  }

  /** The residual row after layer n, from the attention of the last row over the visible rows. */
  lemma LastRowNext<F>(m: Model<F>, tokens: seq<int>, n: nat)
    requires tokens != [] && Accepted(m, tokens) && n < m.config.layers
    ensures var p, c := |tokens| - 1, m.config.channels;
            var qkv := QkvOf(m, tokens, n);
            && qkv[p] == QkvRow(m.ops, m.LayerOf(n), c, Residual(m, tokens, n)[p])
            && Residual(m, tokens, n + 1)[p]
            == BlockRow(m.ops, m.LayerOf(n), c, Residual(m, tokens, n)[p],
                        AttentionRow(m.ops, qkv[p][..c], KeyRows(qkv, p + 1, c), ValueRows(qkv, p + 1, c),
                                     m.config.heads))
  {
    hide BlockRow, QkvRow;
  }

  /** The projection to the real vocabulary is the first part of the padded one. */
  lemma NextLogitsRow<F>(m: Model<F>, tokens: seq<int>)
    requires m.Valid() && tokens != [] && Accepted(m, tokens)
    ensures LinearRow(m.ops, FinalRow(m, Residual(m, tokens, m.config.layers)[|tokens| - 1]),
                      RealTable(m), [])
         == NextLogits(m, tokens)
  {
    hide FinalRow, TokenTable, Residual, DotTo;
  }
}
