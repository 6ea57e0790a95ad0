/** Severities, the Adapter contract and the adapters of adapter.go, with the trace a write produces. */
module Adapters {
  import opened FieldMaps

  /** Go's `Severity`, a named string type. */
  datatype Severity = Severity(name: string)

  const Info: Severity := Severity("info")
  const Error: Severity := Severity("error")

  /** A point in time as `time.Now()` would give it; the model takes it as a parameter. */
  type Time(==)

  /** The four arguments of one `Adapter.Write(clock, severity, msg, fields)` call. */
  datatype Event = Event(clock: Time, severity: Severity, msg: string, fields: Fields)

  /**
   * An adapter. `Recording(id)` stands for any external sink (it records what it is given),
   * `Stdlib` is the StdlibAdapter, `Multi` the fan-out adapter over its children in order.
   */
  datatype Adapter = Recording(id: int) | Stdlib | Multi(adapters: seq<Adapter>)

  /** One call of `adapter.Write(event)`. */
  datatype Call = Call(adapter: Adapter, event: Event)

  /** A terminal adapter (Recording or Stdlib) receiving an event. */
  datatype Delivery = Delivery(sink: Adapter, event: Event)

  predicate IsSink(a: Adapter) {
    !a.Multi?
  }

  /** The deliveries `a.Write(e)` causes, following the dispatch of each adapter's Write. */
  function Trace(a: Adapter, e: Event): seq<Delivery>
    decreases a
  {
    match a
    case Multi(cs) => TraceAll(cs, e)
    case _ => [Delivery(a, e)]
  }

  /** The deliveries of writing `e` to each of `cs`, in order. */
  function TraceAll(cs: seq<Adapter>, e: Event): seq<Delivery>
    decreases cs
  {
    if cs == [] then [] else TraceAll(cs[..|cs| - 1], e) + Trace(cs[|cs| - 1], e)
  }

  /** The sinks reachable from `a`, left to right, each occurrence kept: the reference fan-out order. */
  function Sinks(a: Adapter): (r: seq<Adapter>)
    ensures forall i :: 0 <= i < |r| ==> IsSink(r[i])
    decreases a
  {
    match a
    case Multi(cs) => SinksAll(cs)
    case _ => [a]
  }

  function SinksAll(cs: seq<Adapter>): (r: seq<Adapter>)
    ensures forall i :: 0 <= i < |r| ==> IsSink(r[i])
    decreases cs
  {
    if cs == [] then [] else SinksAll(cs[..|cs| - 1]) + Sinks(cs[|cs| - 1])
  }

  /** Every sink `e` reaches gets exactly `e`, once per occurrence, in the order of `Sinks(a)`. */
  predicate DeliversToAll(t: seq<Delivery>, sinks: seq<Adapter>, e: Event) {
    |t| == |sinks| && forall i :: 0 <= i < |t| ==> t[i] == Delivery(sinks[i], e)
  }

  lemma {:induction false} TraceDeliversToSinks(a: Adapter, e: Event)
    ensures DeliversToAll(Trace(a, e), Sinks(a), e)
    decreases a
  {
    match a
    case Multi(cs) => TraceAllDeliversToSinks(cs, e);
    case _ =>
  }

  lemma {:induction false} TraceAllDeliversToSinks(cs: seq<Adapter>, e: Event)
    ensures DeliversToAll(TraceAll(cs, e), SinksAll(cs), e)
    decreases cs
  {
    if cs != [] {
      var init, last := cs[..|cs| - 1], cs[|cs| - 1];
      TraceAllDeliversToSinks(init, e);
      TraceDeliversToSinks(last, e);
      var t, s := TraceAll(cs, e), SinksAll(cs);
      assert t == TraceAll(init, e) + Trace(last, e);
      assert s == SinksAll(init) + Sinks(last);
      forall i | 0 <= i < |t|
        ensures t[i] == Delivery(s[i], e)
      {
        if i < |TraceAll(init, e)| {
          assert t[i] == TraceAll(init, e)[i];
          assert s[i] == SinksAll(init)[i];
        } else {
          var j := i - |TraceAll(init, e)|;
          assert t[i] == Trace(last, e)[j];
          assert s[i] == Sinks(last)[j];
        }
      }
    }
  }

  /** One ` key=value` segment of the StdlibAdapter line, `value` rendered by `quote` (Go's `%q`). */
  function Segment(key: string, v: Value, quote: Value -> string): string {
    " " + key + "=" + quote(v)
  }

  /** The segments for `keys`, in that order. */
  function Segments(keys: seq<string>, m: map<string, Value>, quote: Value -> string): string
    requires forall i :: 0 <= i < |keys| ==> keys[i] in m
  {
    if keys == [] then ""
    else Segments(keys[..|keys| - 1], m, quote) + Segment(keys[|keys| - 1], m[keys[|keys| - 1]], quote)
  }

  /** `order` lists every key of `m` exactly once. */
  predicate Enumerates(order: seq<string>, m: map<string, Value>) {
    && |order| == |m|
    && (forall i :: 0 <= i < |order| ==> order[i] in m)
    && (forall i, j :: 0 <= i < j < |order| ==> order[i] != order[j])
    && (forall k :: k in m ==> k in order)
  }

  /**
   * StdlibAdapter.Write: appends one ` key=value` segment per field to the message, in Go's
   * unspecified map order (returned as `order`), and answers the line `log.Println` prints.
   * The clock and the severity are not used.
   */
  method StdlibLine(clock: Time, severity: Severity, msg: string, fields: Fields, quote: Value -> string)
    returns (line: string, order: seq<string>)
    ensures Enumerates(order, Entries(fields))
    ensures line == msg + Segments(order, Entries(fields), quote)
    ensures fields.None? ==> line == msg
  {
    var m := Entries(fields);
    line, order := msg, [];
    var todo := m.Keys;
    while todo != {}
      invariant todo <= m.Keys
      invariant forall i :: 0 <= i < |order| ==> order[i] in m && order[i] !in todo
      invariant forall i, j :: 0 <= i < j < |order| ==> order[i] != order[j]
      invariant forall k :: k in m ==> k in todo || k in order
      invariant |order| + |todo| == |m|
      invariant line == msg + Segments(order, m, quote)
      decreases todo
    {
      var k :| k in todo;
      assert (order + [k])[..|order|] == order;
      line := line + Segment(k, m[k], quote);
      order := order + [k];
      todo := todo - {k};
    }
  }

  /** The two named severities are distinct values with the display forms "info" and "error". */
  lemma SeveritiesDistinct()
    ensures Info != Error
    ensures Info.name == "info" && Error.name == "error"
  {
  }
}
