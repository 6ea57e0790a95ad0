/** The logger of logger.go and the helpers that carry a logger and fields in a context. */
module Loggers {
  import opened Wrappers
  import opened FieldMaps
  import opened Adapters
  import opened Contexts

  /** `fmt.Sprintf(format, args...)`; the model takes the formatter as a parameter. */
  type Formatter = (string, seq<Value>) -> string

  /** The `logger` struct: a fields snapshot and the adapter it writes to. */
  datatype Logger = Logger(fields: Fields, adapter: Adapter) {

    /** logger.WithFields: a new logger on the same adapter whose fields are merged with `f`. */
    function WithFields(f: Fields): (r: Logger)
      ensures r.adapter == adapter
      ensures r.fields == Merge(fields, f)
    {
      Logger(Merge(fields, f), adapter)
    }

    /** logger.Info: one Write on the logger's adapter at severity info, `msg` verbatim. */
    function Info(clock: Time, msg: string): (w: Call)
      ensures w.adapter == adapter
      ensures w.event.severity == Adapters.Info && w.event.clock == clock
      ensures w.event.msg == msg && w.event.fields == fields
    {
      Call(adapter, Event(clock, Adapters.Info, msg, fields))
    }

    /** logger.Infof: as Info, with the message `sprintf(msg, args)`. */
    function Infof(clock: Time, sprintf: Formatter, msg: string, args: seq<Value>): (w: Call)
      ensures w.adapter == adapter
      ensures w.event.severity == Adapters.Info && w.event.clock == clock
      ensures w.event.msg == sprintf(msg, args) && w.event.fields == fields
    {
      Call(adapter, Event(clock, Adapters.Info, sprintf(msg, args), fields))
    }

    /** logger.Error: one Write on the logger's adapter at severity error, `msg` verbatim. */
    function Error(clock: Time, msg: string): (w: Call)
      ensures w.adapter == adapter
      ensures w.event.severity == Adapters.Error && w.event.clock == clock
      ensures w.event.msg == msg && w.event.fields == fields
    {
      Call(adapter, Event(clock, Adapters.Error, msg, fields))
    }

    /** logger.Errorf: as Error, with the message `sprintf(msg, args)`. */
    function Errorf(clock: Time, sprintf: Formatter, msg: string, args: seq<Value>): (w: Call)
      ensures w.adapter == adapter
      ensures w.event.severity == Adapters.Error && w.event.clock == clock
      ensures w.event.msg == sprintf(msg, args) && w.event.fields == fields
    {
      Call(adapter, Event(clock, Adapters.Error, sprintf(msg, args), fields))
    }
  }

  /** Context keys: `struct{}{}`, which every package may use, or a key of some other type. */
  datatype Key = EmptyStruct | OtherKey(id: int)

  /** Both keys are the value `struct{}{}`, and equal values are the same key: there is one slot. */
  const FieldsKey: Key := EmptyStruct
  const LoggerKey: Key := EmptyStruct

  /** What a context may hold: a Fields map, a Logger, or a value put there by other code. */
  datatype Any = FieldsValue(fields: Fields) | LoggerValue(logger: Logger) | OtherValue(v: Value)

  type Ctx = Context<Key, Any>

  /** The nearest slot value is a logger. */
  predicate HoldsLogger(ctx: Ctx) {
    var v: Option<Any> := Lookup(ctx, LoggerKey);
    v.Some? && v.value.LoggerValue?
  }

  /** `ctx.Value(loggerKey).(Logger)`: the nearest slot value, if it is a logger. */
  function AttachedLogger(ctx: Ctx): (r: Option<Logger>)
    ensures r.Some? <==> HoldsLogger(ctx)
    ensures r.Some? ==> Lookup(ctx, LoggerKey) == Some(LoggerValue(r.value))
  {
    var v: Option<Any> := Lookup(ctx, LoggerKey);
    match v
    case Some(LoggerValue(l)) => Some(l)
    case _ => None
  }

  /** From: the attached logger, else `dflt`, the value `DefaultLogger()` answers. */
  function From(ctx: Ctx, dflt: Logger): (l: Logger)
    ensures AttachedLogger(ctx).Some? ==> l == AttachedLogger(ctx).value
    ensures AttachedLogger(ctx).None? ==> l == dflt
  {
    AttachedLogger(ctx).GetOr(dflt)
  }

  /** With: a derived context with `l` in the slot. */
  function With(ctx: Ctx, l: Logger): (c: Ctx)
    ensures c.WithValue? && c.parent == ctx
    ensures Lookup(c, LoggerKey) == Some(LoggerValue(l))
  {
    WithValue(ctx, LoggerKey, LoggerValue(l))
  }

  /** The nearest slot value is a Fields map (possibly a nil one). */
  predicate HoldsFields(ctx: Ctx) {
    var v: Option<Any> := Lookup(ctx, FieldsKey);
    v.Some? && v.value.FieldsValue?
  }

  /** ContextFields: the nearest slot value if it is a Fields map, else nil. */
  function ContextFields(ctx: Ctx): (f: Fields)
    ensures HoldsFields(ctx) ==> Lookup(ctx, FieldsKey) == Some(FieldsValue(f))
    ensures !HoldsFields(ctx) ==> f == None
  {
    var v: Option<Any> := Lookup(ctx, FieldsKey);
    match v
    case Some(FieldsValue(f)) => f
    case _ => None
  }

  /** WithFields(ctx, fields): a derived context whose slot holds the context's fields merged with `f`. */
  function WithFields(ctx: Ctx, f: Fields): (c: Ctx)
    ensures c.WithValue? && c.parent == ctx
    ensures Lookup(c, FieldsKey) == Some(FieldsValue(Merge(ContextFields(ctx), f)))
  {
    WithValue(ctx, FieldsKey, FieldsValue(Merge(ContextFields(ctx), f)))
  }

  lemma FromWith(ctx: Ctx, l: Logger, dflt: Logger)
    ensures From(With(ctx, l), dflt) == l
  {
  }

  lemma BackgroundIsEmpty(dflt: Logger)
    ensures From(Background, dflt) == dflt
    ensures ContextFields(Background) == None
  {
  }

  lemma ContextFieldsWithFields(ctx: Ctx, f: Fields)
    ensures ContextFields(WithFields(ctx, f)) == Merge(ContextFields(ctx), f)
  {
  }

  /** With and WithFields share one slot: the latest of them hides what the other attached. */
  lemma LatestAttachmentShadows(ctx: Ctx, l: Logger, f: Fields, dflt: Logger)
    ensures ContextFields(With(ctx, l)) == None
    ensures From(WithFields(ctx, f), dflt) == dflt
    ensures ContextFields(WithFields(With(ctx, l), f)) == Merge(None, f)
  {
  }

  /** At no point can a context show both an attached logger and attached fields. */
  lemma AtMostOneAttachment(ctx: Ctx)
    ensures AttachedLogger(ctx).None? || ContextFields(ctx).None?
  {
  }

  /** Values put under other keys are invisible to From and ContextFields. */
  lemma OtherKeysAreTransparent(ctx: Ctx, id: int, v: Any, dflt: Logger)
    ensures From(WithValue(ctx, OtherKey(id), v), dflt) == From(ctx, dflt)
    ensures ContextFields(WithValue(ctx, OtherKey(id), v)) == ContextFields(ctx)
  {
  }

  /** A value that other code puts under its own `struct{}{}` key hides both attachments. */
  lemma ForeignEmptyStructKeyHidesBoth(ctx: Ctx, v: Value, dflt: Logger)
    ensures From(WithValue(ctx, EmptyStruct, OtherValue(v)), dflt) == dflt
    ensures ContextFields(WithValue(ctx, EmptyStruct, OtherValue(v))) == None
  {
  }

  /** Deriving twice merges like deriving once with the merged fields. */
  lemma WithFieldsTwice(l: Logger, f: Fields, g: Fields)
    ensures l.WithFields(f).WithFields(g) == l.WithFields(Merge(f, g))
  {
    MergeAssociative(l.fields, f, g);
  }

  /** The fields of a chain of derivations, oldest first. */
  function MergeAll(fs: seq<Fields>): (r: Fields)
    ensures Canonical(r)
    decreases |fs|
  {
    if fs == [] then None else Merge(MergeAll(fs[..|fs| - 1]), fs[|fs| - 1])
  }

  /** `l.WithFields(fs[0]).WithFields(fs[1])...` */
  function LoggerChain(l: Logger, fs: seq<Fields>): Logger
    decreases |fs|
  {
    if fs == [] then l else LoggerChain(l, fs[..|fs| - 1]).WithFields(fs[|fs| - 1])
  }

  /** `WithFields(WithFields(ctx, fs[0]), fs[1])...` */
  function ContextChain(ctx: Ctx, fs: seq<Fields>): Ctx
    decreases |fs|
  {
    if fs == [] then ctx else WithFields(ContextChain(ctx, fs[..|fs| - 1]), fs[|fs| - 1])
  }

  /** A chain of logger derivations is one derivation with the merge of all its fields. */
  lemma {:induction false} LoggerChainCollapses(l: Logger, fs: seq<Fields>)
    requires Canonical(l.fields)
    ensures LoggerChain(l, fs) == l.WithFields(MergeAll(fs))
    decreases |fs|
  {
    if fs == [] {
      MergeNil(l.fields);
    } else {
      var init, last := fs[..|fs| - 1], fs[|fs| - 1];
      LoggerChainCollapses(l, init);
      WithFieldsTwice(l, MergeAll(init), last);
    }
  }

  /** Deriving fields through a logger chain and through a context chain gives the same fields. */
  lemma {:induction false} ChainsAgree(ctx: Ctx, l: Logger, fs: seq<Fields>)
    requires ContextFields(ctx) == l.fields
    ensures ContextFields(ContextChain(ctx, fs)) == LoggerChain(l, fs).fields
    decreases |fs|
  {
    if fs != [] {
      ChainsAgree(ctx, l, fs[..|fs| - 1]);
    }
  }

  /** Two derivations on the background context carry both entries; the background stays empty. */
  lemma TwoDerivationsScenario(va: Value, vb: Value)
    ensures ContextFields(WithFields(WithFields(Background, Some(map["a" := va])), Some(map["b" := vb])))
         == Some(map["a" := va, "b" := vb])
    ensures ContextFields(Background) == None
  {
    var c1 := WithFields(Background, Some(map["a" := va]));
    assert Entries(None) + map["a" := va] == map["a" := va];
    assert "a" in map["a" := va];
    assert ContextFields(c1) == Some(map["a" := va]);
    assert map["a" := va] + map["b" := vb] == map["a" := va, "b" := vb];
  }
}
