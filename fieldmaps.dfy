/** Structured log fields and their merge (the `Fields` type and `mergeFields` of logger.go). */
module FieldMaps {
  import opened Wrappers

  /** A dynamically typed field value; the model only ever copies values, never inspects them. */
  type Value(==)

  /** A Go `Fields` map: None is the nil map, Some(m) a non-nil map with entries m. */
  type Fields = Option<map<string, Value>>

  /** The entries of a Fields value; ranging over a nil map yields nothing. */
  function Entries(f: Fields): map<string, Value> {
    f.GetOr(map[])
  }

  /** Fields in canonical form: nil, or a map with at least one entry. */
  predicate Canonical(f: Fields) {
    f.Some? ==> |f.value| > 0
  }

  /** The Fields value `mergeFields` returns for a map it has filled: nil when the map is empty. */
  function Normalize(m: map<string, Value>): (f: Fields)
    ensures Canonical(f)
    ensures Entries(f) == m
    ensures f.None? <==> |m| == 0
  {
    if |m| == 0 then None else Some(m)
  }

  /** The result of `mergeFields(a, b)`: the entries of `b` written over those of `a`, normalised. */
  function Merge(a: Fields, b: Fields): (r: Fields)
    ensures Canonical(r)
    ensures Entries(r) == Entries(a) + Entries(b)
  {
    Normalize(Entries(a) + Entries(b))
  }

  /**
   * The merged fields have exactly the keys of both inputs; shared keys take `b`'s value and
   * `a`-only keys keep `a`'s; the result is nil exactly when both inputs are nil or empty.
   */
  lemma MergeSemantics(a: Fields, b: Fields)
    ensures Entries(Merge(a, b)).Keys == Entries(a).Keys + Entries(b).Keys
    ensures forall k :: k in Entries(b) ==> Entries(Merge(a, b))[k] == Entries(b)[k]
    ensures forall k :: k in Entries(a) && k !in Entries(b) ==> Entries(Merge(a, b))[k] == Entries(a)[k]
    ensures Merge(a, b).None? <==> |Entries(a)| == 0 && |Entries(b)| == 0
  {
    var m := Entries(a) + Entries(b);
    if |m| == 0 {
      assert m.Keys == {};
      assert Entries(a).Keys == {} && Entries(b).Keys == {};
    }
  }

  /** One `for k, v := range src { dst[k] = v }` loop of mergeFields. */
  method CopyInto(dst: map<string, Value>, src: map<string, Value>) returns (r: map<string, Value>)
    ensures r == dst + src
  {
    r := dst;
    var todo := src.Keys;
    while todo != {}
      invariant todo <= src.Keys
      invariant r == dst + (src - todo)
      decreases todo
    {
      var k :| k in todo;
      CopyStep(dst, src, todo, k);
      r := r[k := src[k]];
      todo := todo - {k};
    }
    assert src - todo == src;
  }

  /** One iteration of the copy loop: writing `src[k]` moves `k` from the keys still to copy to the copied ones. */
  lemma CopyStep(dst: map<string, Value>, src: map<string, Value>, todo: set<string>, k: string)
    requires k in todo && todo <= src.Keys
    ensures (dst + (src - todo))[k := src[k]] == dst + (src - (todo - {k}))
  {
  }

  /**
   * mergeFields: copies `a` into a fresh map, then `b` over it, and answers nil for an empty result.
   * Map values are immutable here, so neither input can be changed by the call.
   */
  method MergeFields(a: Fields, b: Fields) returns (r: Fields)
    ensures r == Merge(a, b)
  {
    var copy := CopyInto(map[], Entries(a));
    assert copy == Entries(a);
    copy := CopyInto(copy, Entries(b));
    if |copy| == 0 {
      r := None;
    } else {
      r := Some(copy);
    }
  }

  /** Merging is associative, nil normalisation included. */
  lemma MergeAssociative(a: Fields, b: Fields, c: Fields)
    ensures Merge(Merge(a, b), c) == Merge(a, Merge(b, c))
  {
    var ea, eb, ec := Entries(a), Entries(b), Entries(c);
    var left, right := (ea + eb) + ec, ea + (eb + ec);
    assert Merge(Merge(a, b), c) == Normalize(left) by {
      assert Entries(Merge(a, b)) == ea + eb;
    }
    assert Merge(a, Merge(b, c)) == Normalize(right) by {
      assert Entries(Merge(b, c)) == eb + ec;
    }
    UnionAssociative(ea, eb, ec);
  }

  lemma UnionAssociative(ea: map<string, Value>, eb: map<string, Value>, ec: map<string, Value>)
    ensures (ea + eb) + ec == ea + (eb + ec)
  {
  }

  /** Nil is a left and right identity of the merge on canonical fields. */
  lemma MergeNil(f: Fields)
    requires Canonical(f)
    ensures Merge(None, f) == f
    ensures Merge(f, None) == f
  {
    assert Entries(None) + Entries(f) == Entries(f);
    assert Entries(f) + Entries(None) == Entries(f);
  }

  /** A non-nil but empty map is not canonical: merging it with nil answers nil, not the empty map. */
  lemma MergeEmptyIsNil()
    ensures Merge(Some(map[]), None) == None
    ensures Merge(None, Some(map[])) == None
  {
  }
}
