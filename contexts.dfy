/** Go's `context.Context`, reduced to its chain of values: `context.WithValue` and `ctx.Value`. */
module Contexts {
  import opened Wrappers

  /** A context: the background context, or a parent extended with one key/value pair. */
  datatype Context<K, V> = Background | WithValue(parent: Context<K, V>, key: K, val: V)

  /** `ctx.Value(key)`: the value of the nearest pair whose key equals `key`; nil (None) if there is none. */
  function Lookup<K(==), V>(ctx: Context<K, V>, key: K): Option<V>
    decreases ctx
  {
    match ctx
    case Background => None
    case WithValue(parent, k, v) => if k == key then Some(v) else Lookup(parent, key)
  }

  /** The pairs of `ctx`, most recently added first. */
  function Bindings<K, V>(ctx: Context<K, V>): seq<(K, V)>
    decreases ctx
  {
    match ctx
    case Background => []
    case WithValue(parent, k, v) => [(k, v)] + Bindings(parent)
  }

  /** `i` is the position of the first pair in `bs` with key `key`. */
  ghost predicate FirstWithKey<K, V>(bs: seq<(K, V)>, key: K, i: int) {
    0 <= i < |bs| && bs[i].0 == key && forall j :: 0 <= j < i ==> bs[j].0 != key
  }

  /** No pair of `bs` has key `key`. */
  ghost predicate NoneWithKey<K, V>(bs: seq<(K, V)>, key: K) {
    forall j :: 0 <= j < |bs| ==> bs[j].0 != key
  }

  /** Lookup answers nil exactly when no pair of the chain has the key. */
  lemma {:induction false} LookupNilIffAbsent<K, V>(ctx: Context<K, V>, key: K)
    ensures Lookup(ctx, key).None? <==> NoneWithKey(Bindings(ctx), key)
    decreases ctx
  {
    match ctx
    case Background =>
    case WithValue(parent, k, v) =>
      LookupNilIffAbsent(parent, key);
      var bs, ps := Bindings(ctx), Bindings(parent);
      assert bs[0] == (k, v);
      assert forall j :: 0 <= j < |ps| ==> bs[j + 1] == ps[j];
      if k != key && NoneWithKey(ps, key) {
        forall j | 0 <= j < |bs| ensures bs[j].0 != key {
          if j > 0 { assert bs[j] == ps[j - 1]; }
        }
      }
  }

  /** Lookup answers the value of the nearest pair with the key. */
  lemma {:induction false} LookupIsNearest<K, V>(ctx: Context<K, V>, key: K, i: int)
    requires FirstWithKey(Bindings(ctx), key, i)
    ensures Lookup(ctx, key) == Some(Bindings(ctx)[i].1)
    decreases ctx
  {
    match ctx
    case WithValue(parent, k, v) =>
      var bs, ps := Bindings(ctx), Bindings(parent);
      if i > 0 {
        assert bs[0].0 != key;
        forall j | 0 <= j < i - 1 ensures ps[j].0 != key {
          assert ps[j] == bs[j + 1];
        }
        assert ps[i - 1] == bs[i];
        LookupIsNearest(parent, key, i - 1);
      }
  }
}
