/**
 * The process-wide defaults: `defaultAdapter` with its once-guard (adapter.go) and
 * `defaultLogger` with its own once-guard (logger.go), run sequentially.
 */
module Defaults {
  import opened Wrappers
  import opened Adapters
  import opened Loggers
  import opened Contexts

  /** The package-level state. A slot is None until its `sync.Once` has run. */
  class Globals {
    var defaultAdapter: Option<Adapter>
    var defaultLogger: Option<Logger>

    /** The default logger, once built, has no fields and writes to the default adapter. */
    ghost predicate Valid()
      reads this
    {
      defaultLogger.Some? ==> defaultAdapter.Some? && defaultLogger.value == Logger(None, defaultAdapter.value)
    }

    /** The state of a process that has not touched either default yet. */
    constructor ()
      ensures Valid()
      ensures defaultAdapter == None && defaultLogger == None
    {
      defaultAdapter := None;
      defaultLogger := None;
    }

    /** SetDefaultAdapter: takes effect only if the adapter once-guard has not run yet. */
    method SetDefaultAdapter(a: Adapter)
      requires Valid()
      modifies this
      ensures Valid()
      ensures old(defaultAdapter).None? ==> defaultAdapter == Some(a)
      ensures old(defaultAdapter).Some? ==> defaultAdapter == old(defaultAdapter)
      ensures defaultLogger == old(defaultLogger)
    {
      if defaultAdapter.None? {
        defaultAdapter := Some(a);
      }
    }

    /** DefaultAdapter: on first use fixes the slot to a new StdlibAdapter unless already set, then answers the slot. */
    method DefaultAdapter() returns (a: Adapter)
      requires Valid()
      modifies this
      ensures Valid()
      ensures old(defaultAdapter).None? ==> a == Stdlib
      ensures old(defaultAdapter).Some? ==> a == old(defaultAdapter).value
      ensures defaultAdapter == Some(a)
      ensures defaultLogger == old(defaultLogger)
    {
      if defaultAdapter.None? {
        defaultAdapter := Some(Stdlib);
      }
      a := defaultAdapter.value;
    }

    /** DefaultLogger: on first use builds a logger without fields on `DefaultAdapter()`, then answers it. */
    method DefaultLogger() returns (l: Logger)
      requires Valid()
      modifies this
      ensures Valid()
      ensures old(defaultLogger).Some? ==> l == old(defaultLogger).value && defaultAdapter == old(defaultAdapter)
      ensures old(defaultLogger).None? && old(defaultAdapter).None? ==> l == Logger(None, Stdlib)
      ensures old(defaultLogger).None? && old(defaultAdapter).Some? ==> l == Logger(None, old(defaultAdapter).value)
      ensures defaultLogger == Some(l) && defaultAdapter == Some(l.adapter) && l.fields == None
    {
      if defaultLogger.None? {
        var a := DefaultAdapter();
        defaultLogger := Some(Logger(None, a));
      }
      l := defaultLogger.value;
    }

    /** From(ctx): the attached logger; only when there is none is `DefaultLogger()` called. */
    method From(ctx: Ctx) returns (l: Logger)
      requires Valid()
      modifies this
      ensures Valid()
      ensures AttachedLogger(ctx).Some? ==> l == AttachedLogger(ctx).value
      ensures AttachedLogger(ctx).Some? ==> defaultAdapter == old(defaultAdapter) && defaultLogger == old(defaultLogger)
      ensures AttachedLogger(ctx).None? ==> defaultLogger == Some(l)
      ensures AttachedLogger(ctx).None? ==> l == old(defaultLogger).GetOr(Logger(None, old(defaultAdapter).GetOr(Stdlib)))
      ensures l == Loggers.From(ctx, defaultLogger.GetOr(l))
    {
      var attached := AttachedLogger(ctx);
      if attached.Some? {
        l := attached.value;
      } else {
        l := DefaultLogger();
      }
    }
  }

  /** Two sets: the first adapter is the default, the second is never used. */
  method FirstSetWins(a: Adapter, b: Adapter) returns (d: Adapter)
    ensures d == a
  {
    var g := new Globals();
    g.SetDefaultAdapter(a);
    g.SetDefaultAdapter(b);
    d := g.DefaultAdapter();
  }

  /** A read between the two sets changes nothing: both reads answer the first adapter. */
  method SetReadSetRead(a: Adapter, b: Adapter) returns (d1: Adapter, d2: Adapter)
    ensures d1 == a && d2 == a
  {
    var g := new Globals();
    g.SetDefaultAdapter(a);
    d1 := g.DefaultAdapter();
    g.SetDefaultAdapter(b);
    d2 := g.DefaultAdapter();
  }

  /** A set after the first read is a no-op: the default stays the StdlibAdapter that read created. */
  method SetAfterReadIsNoOp(a: Adapter) returns (d1: Adapter, d2: Adapter)
    ensures d1 == Stdlib && d2 == Stdlib
  {
    var g := new Globals();
    d1 := g.DefaultAdapter();
    g.SetDefaultAdapter(a);
    d2 := g.DefaultAdapter();
  }

  /**
   * The default logger is built once, on the adapter set before it; later sets do not reach it,
   * and every later call answers the same logger.
   */
  method DefaultLoggerIsFixed(a: Adapter, b: Adapter) returns (l1: Logger, l2: Logger, d: Adapter)
    ensures l1 == Logger(None, a) && l2 == l1 && d == a
  {
    var g := new Globals();
    g.SetDefaultAdapter(a);
    l1 := g.DefaultLogger();
    g.SetDefaultAdapter(b);
    l2 := g.DefaultLogger();
    d := g.DefaultAdapter();
  }

  /** The default logger built with nothing set writes to a StdlibAdapter, and fixes it as the default adapter. */
  method DefaultLoggerWithoutSet(a: Adapter) returns (l: Logger, d: Adapter)
    ensures l == Logger(None, Stdlib) && d == Stdlib
  {
    var g := new Globals();
    l := g.DefaultLogger();
    g.SetDefaultAdapter(a);
    d := g.DefaultAdapter();
  }

  /** From on a context with no logger attached answers the default logger; with one attached, that logger. */
  method FromScenario(loggerX: Logger) returns (fromC1: Logger, fromC0: Logger, dflt: Logger)
    ensures fromC1 == loggerX
    ensures fromC0 == dflt && dflt == Logger(None, Stdlib)
  {
    var g := new Globals();
    var c0: Ctx := Background;
    var c1 := With(c0, loggerX);
    fromC1 := g.From(c1);
    fromC0 := g.From(c0);
    dflt := g.DefaultLogger();
  }

  /** A helper call on a context without a logger builds the default logger, so a later set is ignored. */
  method FromFixesDefaults(b: Adapter) returns (d: Adapter)
    ensures d == Stdlib
  {
    var g := new Globals();
    var c0: Ctx := Background;
    var l := g.From(c0);
    g.SetDefaultAdapter(b);
    d := g.DefaultAdapter();
  }
}
