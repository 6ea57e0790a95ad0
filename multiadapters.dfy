/** The fan-out adapter of multi_adapter.go and the dispatch of `Write` over adapters. */
module MultiAdapters {
  import opened Adapters

  /** MultiAdapter(adapters...): wraps the children, as given, in a fan-out adapter. */
  function MultiAdapter(adapters: seq<Adapter>): (a: Adapter)
    ensures a.Multi? && a.adapters == adapters
  {
    Multi(adapters)
  }

  /**
   * `a.Write(e)`: a sink receives `e`; a multiAdapter calls each child's Write once, in order,
   * with the identical arguments, and stops at nothing (there is no error path).
   */
  method Write(a: Adapter, e: Event) returns (trace: seq<Delivery>)
    ensures trace == Trace(a, e)
    ensures DeliversToAll(trace, Sinks(a), e)
    decreases a
  {
    TraceDeliversToSinks(a, e);
    match a {
      case Multi(cs) =>
        trace := [];
        for i := 0 to |cs|
          invariant trace == TraceAll(cs[..i], e)
        {
          var t := Write(cs[i], e);
          assert cs[..i + 1][..i] == cs[..i];
          trace := trace + t;
        }
        assert cs[..|cs|] == cs;
      case _ =>
        trace := [Delivery(a, e)];
    }
  }

  /** A MultiAdapter built from no adapters writes nowhere. */
  lemma EmptyMultiWritesNothing(e: Event)
    ensures Trace(MultiAdapter([]), e) == []
  {
  }

  /** Fanning out over `xs + ys` is fanning out over `xs`, then over `ys`. */
  lemma {:induction false} TraceAllAppend(xs: seq<Adapter>, ys: seq<Adapter>, e: Event)
    ensures TraceAll(xs + ys, e) == TraceAll(xs, e) + TraceAll(ys, e)
    decreases ys
  {
    if ys == [] {
      assert xs + ys == xs;
    } else {
      var init, last := ys[..|ys| - 1], ys[|ys| - 1];
      assert (xs + ys)[..|xs + ys| - 1] == xs + init;
      TraceAllAppend(xs, init, e);
    }
  }

  /** Nested multis flatten: a multi over multis writes like one multi over all their children. */
  lemma NestedMultiFlattens(xs: seq<Adapter>, ys: seq<Adapter>, e: Event)
    ensures Trace(MultiAdapter([MultiAdapter(xs), MultiAdapter(ys)]), e) == Trace(MultiAdapter(xs + ys), e)
  {
    var both := [Multi(xs), Multi(ys)];
    assert both[..1] == [Multi(xs)];
    SingleMultiIsTransparent(Multi(xs), e);
    assert TraceAll(both, e) == TraceAll(xs, e) + TraceAll(ys, e);
    TraceAllAppend(xs, ys, e);
  }

  /** A multi over a single adapter writes exactly as that adapter does. */
  lemma SingleMultiIsTransparent(a: Adapter, e: Event)
    ensures Trace(MultiAdapter([a]), e) == Trace(a, e)
  {
    assert [a][..0] == [];
    assert TraceAll([a], e) == [] + Trace(a, e);
  }

  /** The three-adapter scenario: each sink observes exactly one identical write, in order. */
  lemma ThreeSinksInOrder(a1: Adapter, a2: Adapter, a3: Adapter, e: Event)
    requires IsSink(a1) && IsSink(a2) && IsSink(a3)
    ensures Trace(MultiAdapter([a1, a2, a3]), e) == [Delivery(a1, e), Delivery(a2, e), Delivery(a3, e)]
  {
    var cs := [a1, a2, a3];
    assert cs[..2] == [a1, a2];
    assert cs[..2][..1] == [a1];
    SingleMultiIsTransparent(a1, e);
    assert TraceAll([a1], e) == [Delivery(a1, e)];
    assert TraceAll(cs[..2], e) == [Delivery(a1, e), Delivery(a2, e)];
    assert TraceAll(cs, e) == TraceAll(cs[..2], e) + [Delivery(a3, e)];
  }
}
